/** Compiled branches and loops behave as the structured ones: the code generation theorem. */
module ControlFlowCorrect {
  import opened Bytecode
  import opened Runtime
  import opened PrimExprs
  import opened Builtins
  import opened IRValues
  import opened MemoryIR
  import opened Structured
  import opened CodegenSpec
  import opened CodegenState
  import opened WellFormed
  import opened FrameMachine
  import opened StraightLineCorrect

  // ---------------------------------------------------------------- environments

  lemma {:induction false} BindAllKeys(E: Env, ids: seq<nat>, vals: seq<Val>)
    requires |ids| == |vals|
    ensures BindAll(E, ids, vals).Keys == E.Keys + Ids(ids)
    decreases |ids|
  {
    if ids != [] {
      BindAllKeys(E[ids[0] := vals[0]], ids[1..], vals[1..]);
      IdsCons(ids[0], ids[1..]);
      assert ids == [ids[0]] + ids[1..];
    }
  }

  /** An op adds exactly what it defines to the visible ids. */
  lemma {:induction false} EvalOpKeys(M: Machine, op: Op, E: Env, w: World, fuel: nat)
    requires EvalOp(M, op, E, w, fuel).Ok?
    ensures (op.IfOp? && op.els.None? ==> op.results == []) ==>
      EvalOp(M, op, E, w, fuel).value.Keys == E.Keys + Defines(op)
  {
    match op
    case IfOp(results, cond, thn, els) =>
      var taken := AsBool(M.host, EvalValue(M.host, cond, E).value).value;
      if taken {
        BindAllKeys(E, results, EvalBlock(M, thn, E, w, fuel).value);
      } else if els.Some? {
        BindAllKeys(E, results, EvalBlock(M, els.value, E, w, fuel).value);
      }
    case ForOp(results, _, _, start, end, step, iters, _) =>
      var first, last, inc := EvalBound(M.host, start, E).value, EvalBound(M.host, end, E).value,
        EvalBound(M.host, step, E).value;
      var inits := EvalValues(M.host, IterInits(iters), E).value;
      if results != [] { BindAllKeys(E, results, EvalLoop(M, op, Count(first, last, inc), inits, E, w, fuel).value); }
    case _ =>
  }

  lemma {:induction false} EvalOpsKeys(M: Machine, ops: seq<Op>, E: Env, w: World, fuel: nat, taken: set<nat>,
                                       kinds: Kinds)
    requires EvalOps(M, ops, E, w, fuel).Ok? && WfOps(ops, E.Keys, taken, kinds)
    ensures EvalOps(M, ops, E, w, fuel).value.Keys == E.Keys + DefinesOps(ops)
    decreases |ops|
  {
    if ops != [] {
      var r := EvalOp(M, ops[0], E, w, fuel);
      EvalOpKeys(M, ops[0], E, w, fuel);
      EvalOpsKeys(M, ops[1..], r.value, r.w, fuel, taken + Defines(ops[0]), kinds);
    }
  }

  // ---------------------------------------------------------------- copies

  /** vals[k] can be read when the copies start. */
  ghost predicate Readable(h: Host, vals: seq<Value>, xs: seq<Val>, s: State, R: seq<Val>) {
    |xs| == |vals| &&
    forall k :: 0 <= k < |vals| ==>
      if vals[k].Imm? then xs[k] == Load(h, vals[k].c)
      else Lookup(s, vals[k].id) < |R| && R[Lookup(s, vals[k].id)] == xs[k]
  }

  /** A destination written early is read later only if it already held the value written. */
  ghost predicate NoClobber(dsts: seq<nat>, vals: seq<Value>, xs: seq<Val>, s: State)
    requires |xs| == |vals| == |dsts|
  {
    forall i, j :: 0 <= i < j < |vals| && !vals[j].Imm? && Lookup(s, vals[j].id) == dsts[i] ==> xs[j] == xs[i]
  }

  ghost predicate Targets(dsts: seq<nat>, R: seq<Val>, fin: State) {
    Distinct(dsts) && forall k :: 0 <= k < |dsts| ==> dsts[k] < |R| && dsts[k] !in ConstSet(fin)
  }

  ghost predicate OnlyTargets(R: seq<Val>, R': seq<Val>, dsts: seq<nat>) {
    |R'| == |R| && forall r :: 0 <= r < |R| && r !in dsts ==> R'[r] == R[r]
  }

  lemma LoadedTargets(h: Host, R: seq<Val>, R': seq<Val>, dsts: seq<nat>, fin: State)
    requires Loaded(h, R, fin) && Targets(dsts, R, fin) && OnlyTargets(R, R', dsts)
    ensures Loaded(h, R', fin)
  {
    forall k | 0 <= k < |fin.inits| ensures R'[fin.inits[k].reg] == Load(h, fin.consts[fin.inits[k].idx]) {
      assert fin.inits[k].reg in ConstSet(fin);
    }
  }

  lemma {:induction false} CopyRuns(P: Code, dst: nat, v: Value, x: Val, s: State, fin: State, pc: int, R: seq<Val>,
                                    w: World, kinds: Kinds)
    requires Good(s, kinds) && BuiltinKinds(kinds) && PlainValue(v, kinds) && fin.funcs <= P.funcs
    requires Loaded(P.M.host, R, fin) && dst < |R|
    requires var (r, s1) := RegOf(v, s);
      Extends(EmitBuiltin(dst, Identity, [r], s1).s, fin) && At(P.instrs, pc, EmitBuiltin(dst, Identity, [r], s1).code)
    requires Readable(P.M.host, [v], [x], s, R)
    ensures Steps(P, Running(pc, R, w), 1) == Running(pc + 1, R[dst := x], w)
  {
    hide Good, Loaded, At, Steps;
    var (r, s1) := RegOf(v, s);
    assert Readable(P.M.host, [v], [x], s, R) ==>
      (if v.Imm? then x == Load(P.M.host, v.c) else Lookup(s, v.id) < |R| && R[Lookup(s, v.id)] == x) by {
      assert [v][0] == v && [x][0] == x;
    }
    RegOfOk(v, s, kinds);
    EmitCallOk(dst, Builtin, Core(Identity), [r], [], s1, kinds);
    ExtendsTrans(s1, EmitBuiltin(dst, Identity, [r], s1).s, fin);
    if v.Imm? { ConstRegHolds(P.M.host, v.c, s, fin, R, kinds); }
    assert RegsHold([r], [x], R);
    BuiltinRuns(P, pc, R, w, dst, Identity, [r], [x], s1, kinds);
  }

  /** Sequential identity copies deliver every value when none is clobbered. */
  lemma {:induction false} CopiesRun(P: Code, dsts: seq<nat>, vals: seq<Value>, xs: seq<Val>, s: State, fin: State,
                                     pc: int, R: seq<Val>, w: World, kinds: Kinds)
    returns (R': seq<Val>)
    requires Good(s, kinds) && BuiltinKinds(kinds) && PlainValues(vals, kinds) && |dsts| == |vals| == |xs|
    requires fin.funcs <= P.funcs && Loaded(P.M.host, R, fin) && Targets(dsts, R, fin)
    requires var g := GenCopies(dsts, vals, s); Extends(g.s, fin) && At(P.instrs, pc, g.code)
    requires Readable(P.M.host, vals, xs, s, R) && NoClobber(dsts, vals, xs, s)
    ensures |GenCopies(dsts, vals, s).code| == |dsts|
    ensures Steps(P, Running(pc, R, w), |dsts|) == Running(pc + |dsts|, R', w)
    ensures RegsHold(dsts, xs, R') && OnlyTargets(R, R', dsts)
    decreases |vals|
  {
    hide Good, Extends, Loaded, Steps, EmitCall, At, Readable, NoClobber;
    R' := R;
    if vals == [] {
      StepsZero(P, Running(pc, R, w));
    } else {
      var (r, s1) := RegOf(vals[0], s);
      var c := EmitBuiltin(dsts[0], Identity, [r], s1);
      var rest := GenCopies(dsts[1..], vals[1..], c.s);
      RegOfOk(vals[0], s, kinds);
      EmitCallOk(dsts[0], Builtin, Core(Identity), [r], [], s1, kinds);
      GenCopiesOk(dsts[1..], vals[1..], c.s, kinds);
      ExtendsTrans(c.s, rest.s, fin);
      AtParts(P.instrs, pc, c.code, rest.code);
      ReadableHead(P.M.host, vals, xs, s, R);
      CopyRuns(P, dsts[0], vals[0], xs[0], s, fin, pc, R, w, kinds);
      var R1 := R[dsts[0] := xs[0]];
      CopyKeeps(P.M.host, dsts, vals, xs, s, c.s, R, fin);
      R' := CopiesRun(P, dsts[1..], vals[1..], xs[1..], c.s, fin, pc + 1, R1, w, kinds);
      StepsAdd(P, Running(pc, R, w), 1, |dsts| - 1);
      CopyDelivered(dsts, xs, R, R');
    }
  }

  lemma {:induction false} StepsZero(P: Code, st: Status)
    ensures Steps(P, st, 0) == st
  {
  }

  lemma ReadableHead(h: Host, vals: seq<Value>, xs: seq<Val>, s: State, R: seq<Val>)
    requires Readable(h, vals, xs, s, R) && vals != []
    ensures Readable(h, [vals[0]], [xs[0]], s, R)
  {
  }

  /** After the first copy the others are still readable and safe. */
  lemma CopyKeeps(h: Host, dsts: seq<nat>, vals: seq<Value>, xs: seq<Val>, s: State, s': State, R: seq<Val>, fin: State)
    requires |dsts| == |vals| == |xs| > 0 && s'.env == s.env
    requires Loaded(h, R, fin) && Targets(dsts, R, fin) && Readable(h, vals, xs, s, R) && NoClobber(dsts, vals, xs, s)
    ensures var R1 := R[dsts[0] := xs[0]];
      Loaded(h, R1, fin) && Targets(dsts[1..], R1, fin) && Readable(h, vals[1..], xs[1..], s', R1) &&
      NoClobber(dsts[1..], vals[1..], xs[1..], s')
  {
    var R1 := R[dsts[0] := xs[0]];
    assert dsts[0] in dsts;
    LoadedTargets(h, R, R1, dsts, fin);
    forall i, j | 0 <= i < j < |vals| - 1 && !vals[1..][j].Imm? && Lookup(s', vals[1..][j].id) == dsts[1..][i]
      ensures xs[1..][j] == xs[1..][i]
    {
      assert vals[j + 1] == vals[1..][j] && dsts[i + 1] == dsts[1..][i];
    }
  }

  lemma CopyDelivered(dsts: seq<nat>, xs: seq<Val>, R: seq<Val>, R': seq<Val>)
    requires |dsts| == |xs| > 0 && dsts[0] < |R| && Distinct(dsts)
    requires RegsHold(dsts[1..], xs[1..], R') && OnlyTargets(R[dsts[0] := xs[0]], R', dsts[1..])
    ensures RegsHold(dsts, xs, R') && OnlyTargets(R, R', dsts)
  {
    assert dsts[0] !in dsts[1..];
    assert dsts == [dsts[0]] + dsts[1..];
    forall k | 0 <= k < |dsts| ensures dsts[k] < |R'| && R'[dsts[k]] == xs[k] {
      if k > 0 { assert dsts[k] == dsts[1..][k - 1] && xs[k] == xs[1..][k - 1]; }
    }
  }

  // ---------------------------------------------------------------- branches

  /** Only registers allocated between s and s', and the targets, may have changed. */
  ghost predicate SameBut(R: seq<Val>, R': seq<Val>, dsts: seq<nat>, lo: nat, hi: nat, fin: State) {
    |R'| == |R| &&
    forall r :: 0 <= r < |R| && r !in dsts && (r < lo || r >= hi || r in ConstSet(fin)) ==> R'[r] == R[r]
  }

  /** Running a region delivers the values it yields into the target registers. */
  ghost predicate Yields(r: Stretch, out: Outcome<seq<Val>>, dsts: seq<nat>, lo: nat, hi: nat, fin: State, fuel: nat) {
    match out
    case Ok(vs, w') =>
      Steps(r.P, Running(r.pc, r.R, r.w), r.n) == Running(r.pc + r.len, r.R', w') &&
      RegsHold(dsts, vs, r.R') && SameBut(r.R, r.R', dsts, lo, hi, fin)
    case Raised(w') => Steps(r.P, Running(r.pc, r.R, r.w), r.n) == Failed(w')
    case OutOfFuel => r.n >= fuel && Steps(r.P, Running(r.pc, r.R, r.w), r.n).Running?
  }

  /** A yielded id whose register is an earlier target is also what is yielded there. */
  ghost predicate SafeTargets(yielded: seq<Value>, dsts: seq<nat>, s: State)
    requires |yielded| == |dsts|
  {
    forall i, j :: 0 <= i < j < |yielded| && !yielded[j].Imm? && Lookup(s, yielded[j].id) == dsts[i] ==>
      !yielded[i].Imm? && yielded[i].id == yielded[j].id
  }

  lemma {:induction false} EvalValuesAt(h: Host, vs: seq<Value>, E: Env, k: nat)
    requires EvalValues(h, vs, E).Some? && k < |vs|
    ensures EvalValue(h, vs[k], E) == Some(EvalValues(h, vs, E).value[k])
  {
    if k > 0 { EvalValuesAt(h, vs[1..], E, k - 1); }
  }

  lemma {:induction false} OkEvals(h: Host, vs: seq<Value>, E: Env, kinds: Kinds)
    requires OkValues(vs, E.Keys, kinds)
    ensures EvalValues(h, vs, E).Some?
  {
    if vs != [] { OkEvals(h, vs[1..], E, kinds); }
  }

  lemma {:induction false} YieldsReadable(P: Code, yielded: seq<Value>, dsts: seq<nat>, s: State, fin: State, E: Env,
                                          R: seq<Val>, kinds: Kinds)
    requires Ready(P, s, fin, E, R, kinds) && OkValues(yielded, E.Keys, kinds) && |dsts| == |yielded|
    requires SafeTargets(yielded, dsts, s)
    ensures EvalValues(P.M.host, yielded, E).Some? && PlainValues(yielded, kinds)
    ensures Readable(P.M.host, yielded, EvalValues(P.M.host, yielded, E).value, s, R)
    ensures NoClobber(dsts, yielded, EvalValues(P.M.host, yielded, E).value, s)
  {
    OkEvals(P.M.host, yielded, E, kinds);
    var xs := EvalValues(P.M.host, yielded, E).value;
    forall k | 0 <= k < |yielded|
      ensures EvalValue(P.M.host, yielded[k], E) == Some(xs[k])
    {
      EvalValuesAt(P.M.host, yielded, E, k);
    }
  }

  lemma TargetsFrom(dsts: seq<nat>, R: seq<Val>, R': seq<Val>, fin: State)
    requires Targets(dsts, R, fin) && |R'| == |R|
    ensures Targets(dsts, R', fin)
  {
  }

  lemma SameThenTargets(R: seq<Val>, R1: seq<Val>, R2: seq<Val>, dsts: seq<nat>, lo: nat, mid: nat, hi: nat, fin: State)
    requires |R1| == |R| && Same(R, R1, lo, mid, fin) && OnlyTargets(R1, R2, dsts) && mid <= hi
    ensures SameBut(R, R2, dsts, lo, hi, fin)
  {
  }

  /** The copies at the end of a region, once its ops have run. */
  lemma YieldRuns(P: Code, yielded: seq<Value>, dsts: seq<nat>, s: State, fin: State, E: Env, pc: int, R: seq<Val>,
                  w: World, kinds: Kinds)
    returns (R': seq<Val>)
    requires Ready(P, s, fin, E, R, kinds) && BuiltinKinds(kinds) && OkValues(yielded, E.Keys, kinds)
    requires |dsts| == |yielded| && Targets(dsts, R, fin) && SafeTargets(yielded, dsts, s)
    requires var g := GenCopies(dsts, yielded, s); Extends(g.s, fin) && At(P.instrs, pc, g.code)
    ensures EvalValues(P.M.host, yielded, E).Some? && |GenCopies(dsts, yielded, s).code| == |dsts|
    ensures Steps(P, Running(pc, R, w), |dsts|) == Running(pc + |dsts|, R', w)
    ensures RegsHold(dsts, EvalValues(P.M.host, yielded, E).value, R') && OnlyTargets(R, R', dsts)
  {
    hide Good, Extends, Loaded, Agree, Steps, Targets, SafeTargets, Readable, NoClobber;
    YieldsReadable(P, yielded, dsts, s, fin, E, R, kinds);
    R' := CopiesRun(P, dsts, yielded, EvalValues(P.M.host, yielded, E).value, s, fin, pc, R, w, kinds);
  }

  lemma {:induction false} BranchRuns(P: Code, b: Block, dsts: seq<nat>, s: State, taken: set<nat>, fin: State, E: Env,
                                      pc: int, R: seq<Val>, w: World, kinds: Kinds, fuel: nat)
    returns (n: nat, R': seq<Val>)
    requires Ready(P, s, fin, E, R, kinds) && BuiltinKinds(kinds) && WfBlock(b, |dsts|, E.Keys, taken, kinds)
    requires E.Keys <= taken
    requires var g := GenBranch(b, dsts, s); Extends(g.s, fin) && At(P.instrs, pc, g.code)
    requires Targets(dsts, R, fin) && SafeTargets(b.yielded, dsts, GenOps(b.ops, s).s)
    ensures var g := GenBranch(b, dsts, s);
      Yields(Stretch(P, pc, R, w, n, |g.code|, R'), EvalBlock(P.M, b, E, w, fuel), dsts, s.next, g.s.next, fin, fuel)
    decreases b, fuel, 0
  {
    hide Good, Extends, Loaded, Same, SameBut, OnlyTargets, RegsHold, Agree, Steps, Targets, SafeTargets;
    hide GenOps, GenCopies, WithIdentity, EvalOps, WfOps, DefinesOps, BindsOps, At, OkValues;
    var body := GenOps(b.ops, s);
    var ready := WithIdentity(body.s);
    var copies := GenCopies(dsts, b.yielded, ready);
    GenOpsOk(b.ops, s, E.Keys, taken, kinds);
    OkValuesPlain(b.yielded, E.Keys + DefinesOps(b.ops), kinds);
    WithIdentityOk(body.s, kinds);
    GenCopiesOk(dsts, b.yielded, ready, kinds);
    ExtendsTrans(ready, copies.s, fin);
    ExtendsTrans(body.s, ready, fin);
    AtParts(P.instrs, pc, body.code, copies.code);
    var n1, R1 := OpsRun(P, b.ops, s, taken, fin, E, pc, R, w, kinds, fuel);
    n, R' := n1, R1;
    var r := EvalOps(P.M, b.ops, E, w, fuel);
    if r.Ok? {
      EvalOpsKeys(P.M, b.ops, E, w, fuel, taken, kinds);
      ReadyOps(P, s, body.s, fin, E, r.value, R, R1, BindsOps(b.ops), kinds);
      TargetsFrom(dsts, R, R1, fin);
      ReadyGood(P, body.s, ready, fin, r.value, R1, kinds);
      SafeTargetsSame(b.yielded, dsts, body.s, ready);
      R' := YieldRuns(P, b.yielded, dsts, ready, fin, r.value, pc + |body.code|, R1, r.w, kinds);
      n := n1 + |dsts|;
      StepsAdd(P, Running(pc, R, w), n1, |dsts|);
      SameThenTargets(R, R1, R', dsts, s.next, body.s.next, copies.s.next, fin);
    }
  }

  lemma SafeTargetsSame(yielded: seq<Value>, dsts: seq<nat>, s: State, s': State)
    requires |yielded| == |dsts| && SafeTargets(yielded, dsts, s) && s'.env == s.env
    ensures SafeTargets(yielded, dsts, s')
  {
  }

  /** After running ops the machine is ready for what follows them. */
  lemma ReadyOps(P: Code, s: State, s': State, fin: State, E: Env, E': Env, R: seq<Val>, R': seq<Val>, ids: set<nat>,
                 kinds: Kinds)
    requires Ready(P, s, fin, E, R, kinds) && Advances(s, s', ids, kinds)
    requires |R'| == |R| && Same(R, R', s.next, s'.next, fin) && Agree(s', E', R')
    ensures Ready(P, s', fin, E', R', kinds)
  {
    LoadedSame(P.M.host, R, R', s.next, s'.next, fin);
  }

  // ---------------------------------------------------------------- if

  /** Visible values never sit in the result registers of an enclosing conditional. */
  lemma {:induction false} IfSafe(ops: seq<Op>, yielded: seq<Value>, dsts: seq<nat>, s: State, s1: State, E: Env,
                                  scope: set<nat>, taken: set<nat>, kinds: Kinds)
    requires Good(s, kinds) && BuiltinKinds(kinds) && WfOps(ops, scope, taken, kinds) && scope <= taken
    requires (forall id :: id in scope ==> id in s.env && s.env[id] < s1.next) && s1.next + |dsts| <= s.next
    requires dsts == RegRange(s1.next, |dsts|) && |yielded| == |dsts|
    requires OkValues(yielded, scope + DefinesOps(ops), kinds)
    ensures SafeTargets(yielded, dsts, GenOps(ops, s).s)
  {
    var s' := GenOps(ops, s).s;
    GenOpsOk(ops, s, scope, taken, kinds);
    BindsOpsFresh(ops, scope, taken, kinds);
    forall j | 0 <= j < |yielded| && !yielded[j].Imm?
      ensures Lookup(s', yielded[j].id) < s1.next || Lookup(s', yielded[j].id) >= s.next
    {
      var id := yielded[j].id;
      assert OkValue(yielded[j], scope + DefinesOps(ops), kinds);
      if id in scope { assert id !in BindsOps(ops); }
    }
  }

  /** Reaching code after n1 steps, from which the region runs. */
  lemma {:induction false} YieldsAfter(P: Code, pc: int, R: seq<Val>, w: World, n1: nat, len1: nat, n2: nat, len2: nat,
                                       R': seq<Val>, out: Outcome<seq<Val>>, dsts: seq<nat>, lo: nat, hi: nat,
                                       fin: State, fuel: nat)
    requires Steps(P, Running(pc, R, w), n1) == Running(pc + len1, R, w)
    requires Yields(Stretch(P, pc + len1, R, w, n2, len2, R'), out, dsts, lo, hi, fin, fuel)
    ensures Yields(Stretch(P, pc, R, w, n1 + n2, len1 + len2, R'), out, dsts, lo, hi, fin, fuel)
  {
    StepsAdd(P, Running(pc, R, w), n1, n2);
  }

  /** A region followed by a forward jump. */
  lemma YieldsThenGoto(P: Code, pc: int, R: seq<Val>, w: World, n: nat, len: nat, skip: nat, R': seq<Val>,
                       out: Outcome<seq<Val>>, dsts: seq<nat>, lo: nat, hi: nat, fin: State, fuel: nat)
    returns (n': nat)
    requires Yields(Stretch(P, pc, R, w, n, len, R'), out, dsts, lo, hi, fin, fuel)
    requires At(P.instrs, pc + len, [GotoInstr(skip)])
    ensures Yields(Stretch(P, pc, R, w, n', len + skip, R'), out, dsts, lo, hi, fin, fuel)
  {
    n' := n;
    if out.Ok? {
      AtHead(P.instrs, pc + len, GotoInstr(skip));
      var st := Running(pc + len, R', out.w);
      assert Steps(P, Step(P, st), 0) == Step(P, st);
      StepsAdd(P, Running(pc, R, w), n, 1);
      n' := n + 1;
    }
  }

  /** One step into a region that is followed by a forward jump. */
  lemma YieldsJumped(P: Code, pc: int, R: seq<Val>, w: World, n: nat, len: nat, skip: nat, R': seq<Val>,
                     out: Outcome<seq<Val>>, dsts: seq<nat>, lo: nat, hi: nat, fin: State, fuel: nat)
    returns (n': nat)
    requires Steps(P, Running(pc, R, w), 1) == Running(pc + 1, R, w)
    requires Yields(Stretch(P, pc + 1, R, w, n, len, R'), out, dsts, lo, hi, fin, fuel)
    requires At(P.instrs, pc + 1 + len, [GotoInstr(skip)])
    ensures Yields(Stretch(P, pc, R, w, n', len + skip + 1, R'), out, dsts, lo, hi, fin, fuel)
  {
    hide Yields, Steps, At;
    var n3 := YieldsThenGoto(P, pc + 1, R, w, n, len, skip, R', out, dsts, lo, hi, fin, fuel);
    YieldsAfter(P, pc, R, w, 1, 1, n3, len + skip, R', out, dsts, lo, hi, fin, fuel);
    n' := 1 + n3;
  }

  lemma {:induction false} IfStep(P: Code, pc: int, R: seq<Val>, w: World, cond: nat, t: int, f: int, v: Val)
    requires At(P.instrs, pc, [IfInstr(cond, t, f)]) && cond < |R| && R[cond] == v
    ensures Steps(P, Running(pc, R, w), 1) ==
      match AsBool(P.M.host, v)
      case Some(b) => Running(pc + (if b then t else f), R, w)
      case None => Failed(w)
  {
    AtHead(P.instrs, pc, IfInstr(cond, t, f));
    var st := Running(pc, R, w);
    assert Steps(P, Step(P, st), 0) == Step(P, st);
  }

  /** The delivered values become the results; everything visible before is still in place. */
  lemma IfDone(P: Code, results: seq<nat>, first: nat, s: State, s': State, lo: nat, hi: nat, fin: State, E: Env,
               pc: int, R: seq<Val>, w: World, n: nat, len: nat, R': seq<Val>, out: Outcome<seq<Val>>, fuel: nat)
    requires var dsts := RegRange(first, |results|);
      Yields(Stretch(P, pc, R, w, n, len, R'), out, dsts, lo, hi, fin, fuel) && Targets(dsts, R, fin)
    requires Agree(s, E, R) && (forall id :: id in E ==> id !in results && s.env[id] < s.next)
    requires s.next <= first && first + |results| <= lo <= hi <= s'.next
    requires Distinct(results)
    requires forall k :: 0 <= k < |results| ==> results[k] in s'.env && s'.env[results[k]] == first + k
    requires forall id :: id in E ==> id in s'.env && s'.env[id] == s.env[id]
    requires out.Ok? ==> |out.value| == |results|
    ensures Executes(Stretch(P, pc, R, w, n, len, R'), BindResults(E, results, out), s, s', fin, fuel)
  {
    hide Steps, Agree;
    var dsts := RegRange(first, |results|);
    if out.Ok? {
      assert forall r :: r < first || r >= lo ==> r !in dsts;
      assert Same(R, R', s.next, s'.next, fin);
      ResultsAgree(results, first, s, s', fin, E, R, R', out.value);
    }
  }

  lemma {:induction false} ResultsAgree(results: seq<nat>, first: nat, s: State, s': State, fin: State, E: Env,
                                        R: seq<Val>, R': seq<Val>, vals: seq<Val>)
    requires Agree(s, E, R) && Same(R, R', first, s'.next, fin) && s.next <= first && Distinct(results)
    requires RegsHold(RegRange(first, |results|), vals, R')
    requires forall id :: id in E ==> id !in results && id in s'.env && s'.env[id] == s.env[id] < s.next
    requires forall k :: 0 <= k < |results| ==> results[k] in s'.env && s'.env[results[k]] == first + k
    ensures Agree(s', BindAll(E, results, vals), R')
  {
    var E' := BindAll(E, results, vals);
    BindAllKeys(E, results, vals);
    forall id | id in E' ensures id in s'.env && s'.env[id] < |R'| && R'[s'.env[id]] == E'[id] {
      if id in results {
        var k :| 0 <= k < |results| && results[k] == id;
        BindAllAt(E, results, vals, k);
        assert RegRange(first, |results|)[k] == first + k;
      } else {
        BindAllOther(E, results, vals, id);
      }
    }
  }

  lemma {:induction false} YieldedCount(M: Machine, b: Block, n: nat, E: Env, taken: set<nat>, w: World, fuel: nat,
                                        kinds: Kinds)
    requires WfBlock(b, n, E.Keys, taken, kinds)
    ensures EvalBlock(M, b, E, w, fuel).Ok? ==> |EvalBlock(M, b, E, w, fuel).value| == n
  {
  }

  /** A conditional's first result register, the registers of all its results, and the state that has them. */
  function FirstResult(op: Op, s: State): nat
    requires op.IfOp?
  {
    RegOf(op.cond, s).1.next
  }

  function ResultRegs(op: Op, s: State): seq<nat>
    requires op.IfOp?
  {
    RegRange(FirstResult(op, s), |op.results|)
  }

  function ResultState(op: Op, s: State): State
    requires op.IfOp?
  {
    AllocBindAll(op.results, RegOf(op.cond, s).1)
  }

  /** In state sb, inside the code of a conditional begun in s, the results have their registers and
      what was visible in s is where it was. */
  ghost predicate IfPlaced(op: Op, s: State, sb: State, fin: State, E: Env, R: seq<Val>)
    requires op.IfOp?
  {
    var first := FirstResult(op, s);
    && Targets(ResultRegs(op, s), R, fin)
    && s.next <= first && first + |op.results| <= sb.next
    && (forall id :: id in E ==> id in s.env && id in sb.env && sb.env[id] == s.env[id] < s.next)
    && (forall k :: 0 <= k < |op.results| ==> op.results[k] in sb.env && sb.env[op.results[k]] == first + k)
  }

  lemma {:induction false} WfIfParts(op: Op, scope: set<nat>, taken: set<nat>, kinds: Kinds)
    requires op.IfOp? && WfOp(op, scope, taken, kinds)
    ensures OkValue(op.cond, scope, kinds) && WfBlock(op.thn, |op.results|, scope, taken + Ids(op.results), kinds)
    ensures op.els.Some? ==> WfBlock(op.els.value, |op.results|, scope, taken + Ids(op.results), kinds)
    ensures op.els.None? ==> op.results == []
    ensures Distinct(op.results) && Ids(op.results) !! taken
  {
  }

  lemma {:induction false} IfReadyStart(P: Code, op: Op, s: State, taken: set<nat>, fin: State, E: Env, R: seq<Val>,
                                        kinds: Kinds)
    requires Ready(P, s, fin, E, R, kinds) && BuiltinKinds(kinds) && op.IfOp? && WfOp(op, E.Keys, taken, kinds)
    requires E.Keys <= taken
    requires Extends(ResultState(op, s), fin)
    ensures Ready(P, ResultState(op, s), fin, E, R, kinds) && IfPlaced(op, s, ResultState(op, s), fin, E, R)
  {
    hide WfOp, Loaded, Targets, Same, Extends, AllocBindAll;
    var s1 := RegOf(op.cond, s).1;
    var s2 := ResultState(op, s);
    WfIfParts(op, E.Keys, taken, kinds);
    RegOfOk(op.cond, s, kinds);
    AllocBindAllOk(op.results, s1, kinds);
    AdvancesTrans(s, s1, s2, {}, Ids(op.results), kinds);
    ResultsTargets(P.M.host, op.results, s1, fin, R, kinds);
    forall k | 0 <= k < |op.results| ensures op.results[k] in s2.env && s2.env[op.results[k]] == s1.next + k {
      AllocBindAllRegs(op.results, s1, k);
    }
  }

  lemma {:induction false} ResultsTargets(h: Host, ids: seq<nat>, s1: State, fin: State, R: seq<Val>, kinds: Kinds)
    requires Good(s1, kinds) && Extends(AllocBindAll(ids, s1), fin) && Loaded(h, R, fin)
    ensures Targets(RegRange(s1.next, |ids|), R, fin)
  {
    var s2 := AllocBindAll(ids, s1);
    AllocBindAllOk(ids, s1, kinds);
    forall k | 0 <= k < |fin.inits| ensures !(s1.next <= fin.inits[k].reg < s2.next) {
      if k < |s1.inits| { assert fin.inits[k] == s1.inits[k]; }
    }
  }

  /** Generating a branch disturbs neither the results nor what is visible. */
  lemma IfReadyMore(P: Code, op: Op, s: State, sb: State, sb': State, ids: set<nat>, taken: set<nat>, fin: State,
                    E: Env, R: seq<Val>, kinds: Kinds)
    requires op.IfOp? && Ready(P, sb, fin, E, R, kinds) && IfPlaced(op, s, sb, fin, E, R)
    requires Advances(sb, sb', ids, kinds)
    requires ids !! taken + Ids(op.results) && E.Keys <= taken
    ensures Ready(P, sb', fin, E, R, kinds) && IfPlaced(op, s, sb', fin, E, R)
  {
    forall k | 0 <= k < |op.results|
      ensures op.results[k] in sb'.env && sb'.env[op.results[k]] == FirstResult(op, s) + k
    {
      assert op.results[k] in Ids(op.results);
    }
  }

  lemma {:induction false} IfDone2(P: Code, op: Op, s: State, s': State, lo: nat, hi: nat, fin: State, E: Env,
                                   taken: set<nat>, pc: int, R: seq<Val>, w: World, n: nat, len: nat, R': seq<Val>,
                                   out: Outcome<seq<Val>>, fuel: nat, kinds: Kinds)
    requires op.IfOp? && WfOp(op, E.Keys, taken, kinds) && E.Keys <= taken && Ready(P, s, fin, E, R, kinds)
    requires Ready(P, s', fin, E, R, kinds) && IfPlaced(op, s, s', fin, E, R)
    requires Yields(Stretch(P, pc, R, w, n, len, R'), out, ResultRegs(op, s), lo, hi, fin, fuel)
    requires FirstResult(op, s) + |op.results| <= lo <= hi <= s'.next
    requires out.Ok? ==> |out.value| == |op.results|
    ensures Executes(Stretch(P, pc, R, w, n, len, R'), BindResults(E, op.results, out), s, s', fin, fuel)
  {
    hide Steps, Loaded, Yields, Executes, Targets, WfOp, Good;
    WfIfParts(op, E.Keys, taken, kinds);
    forall id | id in E ensures id !in op.results {
      assert forall k :: 0 <= k < |op.results| ==> op.results[k] in Ids(op.results);
    }
    IfDone(P, op.results, FirstResult(op, s), s, s', lo, hi, fin, E, pc, R, w, n, len, R', out, fuel);
  }

  /** One branch of a conditional, entered after the IF. */
  lemma {:induction false} IfBranchRuns(P: Code, b: Block, op: Op, s: State, sb: State, taken: set<nat>, fin: State,
                                        E: Env, pc: int, R: seq<Val>, w: World, kinds: Kinds, fuel: nat)
    returns (n: nat, R': seq<Val>)
    requires op.IfOp? && BuiltinKinds(kinds) && E.Keys <= taken && Ready(P, sb, fin, E, R, kinds)
    requires IfPlaced(op, s, sb, fin, E, R)
    requires WfBlock(b, |op.results|, E.Keys, taken + Ids(op.results), kinds)
    requires var g := GenBranch(b, ResultRegs(op, s), sb); Extends(g.s, fin) && At(P.instrs, pc, g.code)
    ensures var g := GenBranch(b, ResultRegs(op, s), sb);
      Yields(Stretch(P, pc, R, w, n, |g.code|, R'), EvalBlock(P.M, b, E, w, fuel), ResultRegs(op, s), sb.next, g.s.next,
             fin, fuel)
    decreases b, fuel, 1
  {
    var dsts := ResultRegs(op, s);
    IfSafe(b.ops, b.yielded, dsts, sb, RegOf(op.cond, s).1, E, E.Keys, taken + Ids(op.results), kinds);
    n, R' := BranchRuns(P, b, dsts, sb, taken + Ids(op.results), fin, E, pc, R, w, kinds, fuel);
  }

  /** The states a conditional's code passes through. */
  lemma {:induction false} IfStates(op: Op, s: State, taken: set<nat>, scope: set<nat>, fin: State, kinds: Kinds)
    requires op.IfOp? && Good(s, kinds) && BuiltinKinds(kinds) && WfOp(op, scope, taken, kinds)
    requires Extends(GenIf(op, s).s, fin)
    ensures var s2 := ResultState(op, s); var thn := GenBranch(op.thn, ResultRegs(op, s), s2);
      FirstResult(op, s) + |op.results| == s2.next <= thn.s.next <= GenIf(op, s).s.next &&
      Extends(RegOf(op.cond, s).1, fin) && Extends(s2, fin) && Extends(thn.s, fin) &&
      Advances(s2, thn.s, BindsOps(op.thn.ops), kinds) &&
      BindsOps(op.thn.ops) !! taken + Ids(op.results) &&
      (op.els.None? ==> GenIf(op, s).s == thn.s) &&
      (op.els.Some? ==> Advances(thn.s, GenIf(op, s).s, BindsOps(op.els.value.ops), kinds) &&
                        BindsOps(op.els.value.ops) !! taken + Ids(op.results))
  {
    hide Good, Extends, BindsOps, GenBranch, AllocBindAll, WfOp, WfOps;
    var (c, s1) := RegOf(op.cond, s);
    var dsts := RegRange(s1.next, |op.results|);
    var s2 := AllocBindAll(op.results, s1);
    var thn := GenBranch(op.thn, dsts, s2);
    WfIfParts(op, scope, taken, kinds);
    RegOfOk(op.cond, s, kinds);
    AllocBindAllOk(op.results, s1, kinds);
    GenBranchOk(op.thn, |op.results|, dsts, s2, scope, taken + Ids(op.results), kinds);
    BindsOpsFresh(op.thn.ops, scope, taken + Ids(op.results), kinds);
    if op.els.Some? {
      GenBranchOk(op.els.value, |op.results|, dsts, thn.s, scope, taken + Ids(op.results), kinds);
      BindsOpsFresh(op.els.value.ops, scope, taken + Ids(op.results), kinds);
      ExtendsTrans(thn.s, GenIf(op, s).s, fin);
    }
    ExtendsTrans(s2, thn.s, fin);
    ExtendsTrans(s1, s2, fin);
  }

  /** The code of a conditional in terms of its branches. */
  lemma {:induction false} IfCode(op: Op, s: State)
    requires op.IfOp?
    ensures var c := RegOf(op.cond, s).0; var thn := GenBranch(op.thn, ResultRegs(op, s), ResultState(op, s));
      if op.els.None? then GenIf(op, s) == Gen([IfInstr(c, 1, |thn.code| + 1)] + thn.code, thn.s)
      else
        var els := GenBranch(op.els.value, ResultRegs(op, s), thn.s);
        GenIf(op, s) == Gen([IfInstr(c, 1, |thn.code| + 2)] + thn.code + [GotoInstr(|els.code| + 1)] + els.code, els.s)
  {
  }

  /** The condition holds and there is no else-branch. */
  lemma {:induction false} IfOnlyThenRuns(P: Code, op: Op, s: State, taken: set<nat>, fin: State, E: Env, pc: int,
                                          R: seq<Val>, w: World, kinds: Kinds, fuel: nat)
    returns (n: nat, R': seq<Val>)
    requires op.IfOp? && Ready(P, s, fin, E, R, kinds) && BuiltinKinds(kinds) && WfOp(op, E.Keys, taken, kinds)
    requires E.Keys <= taken
    requires op.els.None?
    requires var g := GenIf(op, s); Extends(g.s, fin) && At(P.instrs, pc, g.code)
    requires Ready(P, ResultState(op, s), fin, E, R, kinds) && IfPlaced(op, s, ResultState(op, s), fin, E, R)
    requires Ready(P, GenIf(op, s).s, fin, E, R, kinds) && IfPlaced(op, s, GenIf(op, s).s, fin, E, R)
    requires Steps(P, Running(pc, R, w), 1) == Running(pc + 1, R, w)
    ensures var g := GenIf(op, s);
      Executes(Stretch(P, pc, R, w, n, |g.code|, R'), BindResults(E, op.results, EvalBlock(P.M, op.thn, E, w, fuel)), s,
               g.s, fin, fuel)
    decreases op, fuel, 0
  {
    hide Good, Steps, At, GenBranch, EvalBlock, WfBlock, BindsOps, BindResults, Yields, Executes, Extends, WfOp,
         Ready, IfPlaced, GenIf, ResultState, ResultRegs, FirstResult, RegOf, BuiltinKinds, Advances;
    var s2 := ResultState(op, s);
    var thn := GenBranch(op.thn, ResultRegs(op, s), s2);
    var g := GenIf(op, s);
    var c := RegOf(op.cond, s).0;
    ReadyState(P, s, fin, E, R, kinds);
    IfStates(op, s, taken, E.Keys, fin, kinds);
    IfCode(op, s);
    WfIfParts(op, E.Keys, taken, kinds);
    YieldedCount(P.M, op.thn, |op.results|, E, taken + Ids(op.results), w, fuel, kinds);
    var out := EvalBlock(P.M, op.thn, E, w, fuel);
    AtParts(P.instrs, pc, [IfInstr(c, 1, |thn.code| + 1)], thn.code);
    var n2, R2 := IfBranchRuns(P, op.thn, op, s, s2, taken, fin, E, pc + 1, R, w, kinds, fuel);
    YieldsAfter(P, pc, R, w, 1, 1, n2, |thn.code|, R2, out, ResultRegs(op, s), s2.next, thn.s.next, fin, fuel);
    n, R' := 1 + n2, R2;
    IfDone2(P, op, s, g.s, s2.next, thn.s.next, fin, E, taken, pc, R, w, n, |g.code|, R', out, fuel, kinds);
  }

  /** The condition holds and the else-branch is jumped over. */
  lemma {:induction false} IfThenSkipRuns(P: Code, op: Op, s: State, taken: set<nat>, fin: State, E: Env, pc: int,
                                          R: seq<Val>, w: World, kinds: Kinds, fuel: nat)
    returns (n: nat, R': seq<Val>)
    requires op.IfOp? && Ready(P, s, fin, E, R, kinds) && BuiltinKinds(kinds) && WfOp(op, E.Keys, taken, kinds)
    requires E.Keys <= taken
    requires op.els.Some?
    requires var g := GenIf(op, s); Extends(g.s, fin) && At(P.instrs, pc, g.code)
    requires Ready(P, ResultState(op, s), fin, E, R, kinds) && IfPlaced(op, s, ResultState(op, s), fin, E, R)
    requires Ready(P, GenIf(op, s).s, fin, E, R, kinds) && IfPlaced(op, s, GenIf(op, s).s, fin, E, R)
    requires Steps(P, Running(pc, R, w), 1) == Running(pc + 1, R, w)
    ensures var g := GenIf(op, s);
      Executes(Stretch(P, pc, R, w, n, |g.code|, R'), BindResults(E, op.results, EvalBlock(P.M, op.thn, E, w, fuel)), s,
               g.s, fin, fuel)
    decreases op, fuel, 0
  {
    hide Good, Steps, At, GenBranch, EvalBlock, WfBlock, BindsOps, BindResults, Yields, Executes, Extends, WfOp,
         Ready, IfPlaced, GenIf, ResultState, ResultRegs, FirstResult, RegOf, BuiltinKinds, Advances;
    var s2 := ResultState(op, s);
    var thn := GenBranch(op.thn, ResultRegs(op, s), s2);
    var g := GenIf(op, s);
    var c := RegOf(op.cond, s).0;
    ReadyState(P, s, fin, E, R, kinds);
    IfStates(op, s, taken, E.Keys, fin, kinds);
    IfCode(op, s);
    WfIfParts(op, E.Keys, taken, kinds);
    YieldedCount(P.M, op.thn, |op.results|, E, taken + Ids(op.results), w, fuel, kinds);
    var out := EvalBlock(P.M, op.thn, E, w, fuel);
    var els := GenBranch(op.els.value, ResultRegs(op, s), thn.s);
    ThenCodeAt(P.instrs, pc, c, thn.code, els.code);
    var n2, R2 := IfBranchRuns(P, op.thn, op, s, s2, taken, fin, E, pc + 1, R, w, kinds, fuel);
    n := YieldsJumped(P, pc, R, w, n2, |thn.code|, |els.code| + 1, R2, out, ResultRegs(op, s), s2.next, thn.s.next, fin,
                      fuel);
    R' := R2;
    IfDone2(P, op, s, g.s, s2.next, thn.s.next, fin, E, taken, pc, R, w, n, |g.code|, R', out, fuel, kinds);
  }

  lemma ThenCodeAt(instrs: seq<Instr>, pc: int, c: int, thn: seq<Instr>, els: seq<Instr>)
    requires At(instrs, pc, [IfInstr(c, 1, |thn| + 2)] + thn + [GotoInstr(|els| + 1)] + els)
    ensures At(instrs, pc + 1, thn) && At(instrs, pc + 1 + |thn|, [GotoInstr(|els| + 1)])
    ensures At(instrs, pc + |thn| + 2, els)
  {
    var head, jump := [IfInstr(c, 1, |thn| + 2)], [GotoInstr(|els| + 1)];
    AtParts(instrs, pc, head + thn + jump, els);
    AtParts(instrs, pc, head + thn, jump);
    AtParts(instrs, pc, head, thn);
  }

  /** The condition fails and there is an else-branch. */
  lemma {:induction false} IfElseRuns(P: Code, op: Op, s: State, taken: set<nat>, fin: State, E: Env, pc: int,
                                      R: seq<Val>, w: World, kinds: Kinds, fuel: nat)
    returns (n: nat, R': seq<Val>)
    requires op.IfOp? && Ready(P, s, fin, E, R, kinds) && BuiltinKinds(kinds) && WfOp(op, E.Keys, taken, kinds)
    requires E.Keys <= taken
    requires op.els.Some?
    requires var g := GenIf(op, s); Extends(g.s, fin) && At(P.instrs, pc, g.code)
    requires var thn := GenBranch(op.thn, ResultRegs(op, s), ResultState(op, s));
      Ready(P, thn.s, fin, E, R, kinds) && IfPlaced(op, s, thn.s, fin, E, R) &&
        Ready(P, GenIf(op, s).s, fin, E, R, kinds) && IfPlaced(op, s, GenIf(op, s).s, fin, E, R) &&
      Steps(P, Running(pc, R, w), 1) == Running(pc + |thn.code| + 2, R, w)
    ensures var g := GenIf(op, s);
      Executes(Stretch(P, pc, R, w, n, |g.code|, R'),
               BindResults(E, op.results, EvalBlock(P.M, op.els.value, E, w, fuel)), s, g.s, fin, fuel)
    decreases op, fuel, 0
  {
    hide Good, Steps, At, GenBranch, EvalBlock, WfBlock, BindsOps, BindResults, Yields, Executes, Extends, WfOp,
         Ready, IfPlaced, GenIf, ResultState, ResultRegs, FirstResult, RegOf, BuiltinKinds;
    var thn := GenBranch(op.thn, ResultRegs(op, s), ResultState(op, s));
    var els := GenBranch(op.els.value, ResultRegs(op, s), thn.s);
    var g := GenIf(op, s);
    ReadyState(P, s, fin, E, R, kinds);
    IfStates(op, s, taken, E.Keys, fin, kinds);
    IfCode(op, s);
    WfIfParts(op, E.Keys, taken, kinds);
    YieldedCount(P.M, op.els.value, |op.results|, E, taken + Ids(op.results), w, fuel, kinds);
    ThenCodeAt(P.instrs, pc, RegOf(op.cond, s).0, thn.code, els.code);
    var out := EvalBlock(P.M, op.els.value, E, w, fuel);
    var n2, R2 := IfBranchRuns(P, op.els.value, op, s, thn.s, taken, fin, E, pc + |thn.code| + 2, R, w, kinds, fuel);
    YieldsAfter(P, pc, R, w, 1, |thn.code| + 2, n2, |els.code|, R2, out, ResultRegs(op, s), thn.s.next, g.s.next, fin,
                fuel);
    n, R' := 1 + n2, R2;
    IfDone2(P, op, s, g.s, thn.s.next, g.s.next, fin, E, taken, pc, R, w, n, |g.code|, R', out, fuel, kinds);
  }

  lemma ReadyState(P: Code, s: State, fin: State, E: Env, R: seq<Val>, kinds: Kinds)
    requires Ready(P, s, fin, E, R, kinds)
    ensures Good(s, kinds)
  {
  }

  lemma {:induction false} IfAllReady(P: Code, op: Op, s: State, taken: set<nat>, fin: State, E: Env, R: seq<Val>,
                                      kinds: Kinds)
    requires op.IfOp? && Ready(P, s, fin, E, R, kinds) && BuiltinKinds(kinds) && WfOp(op, E.Keys, taken, kinds)
    requires E.Keys <= taken
    requires Extends(GenIf(op, s).s, fin)
    ensures var s2 := ResultState(op, s); var thn := GenBranch(op.thn, ResultRegs(op, s), s2);
      Ready(P, s2, fin, E, R, kinds) && IfPlaced(op, s, s2, fin, E, R) && Ready(P, thn.s, fin, E, R, kinds) &&
        IfPlaced(op, s, thn.s, fin, E, R) &&
      Ready(P, GenIf(op, s).s, fin, E, R, kinds) && IfPlaced(op, s, GenIf(op, s).s, fin, E, R)
  {
    hide Good, Advances, IfPlaced, WfOp, GenBranch, GenIf, ResultState, ResultRegs, FirstResult, BindsOps, Extends;
    var s2 := ResultState(op, s);
    var thn := GenBranch(op.thn, ResultRegs(op, s), s2);
    IfStates(op, s, taken, E.Keys, fin, kinds);
    IfReadyStart(P, op, s, taken, fin, E, R, kinds);
    IfReadyMore(P, op, s, s2, thn.s, BindsOps(op.thn.ops), taken, fin, E, R, kinds);
    if op.els.Some? {
      IfReadyMore(P, op, s, thn.s, GenIf(op, s).s, BindsOps(op.els.value.ops), taken, fin, E, R, kinds);
    }
  }

  lemma {:induction false} IfRuns(P: Code, op: Op, s: State, taken: set<nat>, fin: State, E: Env, pc: int, R: seq<Val>,
                                  w: World, kinds: Kinds, fuel: nat)
    returns (n: nat, R': seq<Val>)
    requires op.IfOp? && Ready(P, s, fin, E, R, kinds) && BuiltinKinds(kinds) && WfOp(op, E.Keys, taken, kinds)
    requires E.Keys <= taken
    requires var g := GenIf(op, s); Extends(g.s, fin) && At(P.instrs, pc, g.code)
    ensures var g := GenIf(op, s);
      Executes(Stretch(P, pc, R, w, n, |g.code|, R'), EvalOp(P.M, op, E, w, fuel), s, g.s, fin, fuel)
    decreases op, fuel, 1
  {
    hide Good, Same, SameBut, Agree, Steps, At, GenBranch, EvalBlock, WfBlock, BindAll, Extends, AsBool, WfOp, Ready,
         IfPlaced, GenIf, ResultState, ResultRegs, FirstResult, RegOf, BuiltinKinds, BindResults;
    var c := RegOf(op.cond, s).0;
    var thn := GenBranch(op.thn, ResultRegs(op, s), ResultState(op, s));
    var g := GenIf(op, s);
    ReadyState(P, s, fin, E, R, kinds);
    WfIfParts(op, E.Keys, taken, kinds);
    IfStates(op, s, taken, E.Keys, fin, kinds);
    IfCode(op, s);
    IfAllReady(P, op, s, taken, fin, E, R, kinds);
    OkEval(P.M.host, op.cond, E);
    var v := EvalValue(P.M.host, op.cond, E).value;
    OkPlain(op.cond, E.Keys, kinds);
    RegOfHolds(P, op.cond, s, fin, E, R, kinds);
    assert g.code == [g.code[0]] + g.code[1..];
    AtParts(P.instrs, pc, [g.code[0]], g.code[1..]);
    IfStep(P, pc, R, w, c, 1, g.code[0].falseOff, v);
    n, R' := 1, R;
    if AsBool(P.M.host, v) == Some(true) {
      if op.els.Some? {
        n, R' := IfThenSkipRuns(P, op, s, taken, fin, E, pc, R, w, kinds, fuel);
      } else {
        n, R' := IfOnlyThenRuns(P, op, s, taken, fin, E, pc, R, w, kinds, fuel);
      }
    } else if AsBool(P.M.host, v) == Some(false) {
      if op.els.Some? {
        n, R' := IfElseRuns(P, op, s, taken, fin, E, pc, R, w, kinds, fuel);
      } else {
        IfReadyAgree(P, op, s, g.s, fin, E, R, kinds);
        SameRefl(R, s.next, g.s.next, fin);
      }
    }
  }

  lemma IfReadyAgree(P: Code, op: Op, s: State, sb: State, fin: State, E: Env, R: seq<Val>, kinds: Kinds)
    requires op.IfOp? && Ready(P, sb, fin, E, R, kinds) && IfPlaced(op, s, sb, fin, E, R)
    ensures Agree(sb, E, R)
  {
  }

  lemma SameRefl(R: seq<Val>, lo: nat, hi: nat, fin: State)
    ensures Same(R, R, lo, hi, fin)
  {
  }

  // ---------------------------------------------------------------- loop entry

  /** Where a loop keeps its index, bounds and carried variables. */
  ghost predicate HeadOk(op: Op, h: LoopHead, fin: State, E: Env) {
    && op.ForOp?
    && h.last < h.index && h.inc < h.index && h.index < h.s.next && h.index !in ConstSet(fin)
    && |h.iters| == |op.iters| && Distinct(h.iters)
    && (forall k :: 0 <= k < |h.iters| ==> h.index < h.iters[k] < h.s.next && h.iters[k] !in ConstSet(fin))
    && op.loopVar in h.s.env && h.s.env[op.loopVar] == h.index
    && (forall k :: 0 <= k < |op.iters| ==> op.iters[k].v in h.s.env && h.s.env[op.iters[k].v] == h.iters[k])
    && (forall id :: id in E ==> id in h.s.env && h.s.env[id] < h.index)
  }

  ghost function LoopEnv(op: Op, E: Env, i: Val, vals: seq<Val>): Env
    requires op.ForOp? && |vals| == |op.iters|
  {
    BindAll(E[op.loopVar := i], IterVars(op.iters), vals)
  }

  lemma BoundRegHolds(P: Code, v: Value, s: State, fin: State, E: Env, R: seq<Val>, kinds: Kinds)
    requires Ready(P, s, fin, E, R, kinds) && OkValue(v, E.Keys, kinds) && IntegralBound(v)
    requires Extends(BoundReg(v, s).1, fin)
    ensures EvalBound(P.M.host, v, E).Some? && BoundReg(v, s).0 < BoundReg(v, s).1.next
    ensures BoundReg(v, s).0 < |R| && R[BoundReg(v, s).0] == EvalBound(P.M.host, v, E).value
  {
    if v.Imm? {
      ConstRegHolds(P.M.host, Int(RangeConst(v.c).value), s, fin, R, kinds);
      ConstRegOk(Int(RangeConst(v.c).value), s, kinds);
    }
  }

  /** Generating the carried variables, one and the rest. */
  lemma {:induction false} ItersSplit(iters: seq<IterArg>, s: State, fin: State, kinds: Kinds)
    requires iters != [] && Good(s, kinds) && BuiltinKinds(kinds) && PlainValues(IterInits(iters), kinds)
    requires Extends(GenIters(iters, s).s, fin)
    ensures var (r, s1) := RegOf(iters[0].init, AllocBind(s, iters[0].v));
      var c := EmitBuiltin(s.next, Identity, [r], s1);
      Good(c.s, kinds) && PlainValues(IterInits(iters[1..]), kinds) && Extends(GenIters(iters[1..], c.s).s, fin) &&
      s.next < c.s.next && s.next !in ConstSet(fin) && iters[0].v in c.s.env && c.s.env[iters[0].v] == s.next &&
      c.s.next <= GenIters(iters[1..], c.s).s.next &&
      GenIters(iters, s).s == GenIters(iters[1..], c.s).s &&
        GenIters(iters, s).regs == [s.next] + GenIters(iters[1..], c.s).regs
  {
    hide Good, Extends, BuiltinKinds, EmitCall;
    var (r, s1) := RegOf(iters[0].init, AllocBind(s, iters[0].v));
    var c := EmitBuiltin(s.next, Identity, [r], s1);
    ItersCons(iters);
    assert PlainValue(IterInits(iters)[0], kinds);
    forall k | 0 <= k < |iters| - 1 ensures PlainValue(IterInits(iters[1..])[k], kinds) {
      assert PlainValue(IterInits(iters)[k + 1], kinds);
    }
    GenIterOk(iters[0], s, kinds);
    GenItersOk(iters[1..], c.s, kinds);
    ExtendsTrans(c.s, GenIters(iters[1..], c.s).s, fin);
    IterPlaced(iters[0], s, c.s, fin, kinds);
  }

  /** Registers of carried variables: fresh, ascending, never constants. */
  lemma {:induction false} ItersPlaced(iters: seq<IterArg>, s: State, fin: State, kinds: Kinds)
    requires Good(s, kinds) && BuiltinKinds(kinds) && PlainValues(IterInits(iters), kinds)
    requires Extends(GenIters(iters, s).s, fin)
    ensures var g := GenIters(iters, s);
      |g.regs| == |iters| && Distinct(g.regs) && (forall r <- g.regs :: s.next <= r < g.s.next && r !in ConstSet(fin))
    decreases |iters|
  {
    if iters != [] {
      hide Good, Extends, BuiltinKinds, EmitCall, RegOf, PlainValues;
      ItersSplit(iters, s, fin, kinds);
      var (r, s1) := RegOf(iters[0].init, AllocBind(s, iters[0].v));
      ItersPlaced(iters[1..], EmitBuiltin(s.next, Identity, [r], s1).s, fin, kinds);
    }
  }

  /** Each carried variable is bound to its register. */
  lemma {:induction false} ItersBound(iters: seq<IterArg>, s: State, fin: State, k: nat, kinds: Kinds)
    requires Good(s, kinds) && BuiltinKinds(kinds) && PlainValues(IterInits(iters), kinds)
    requires Extends(GenIters(iters, s).s, fin)
    requires Distinct(IterVars(iters)) && k < |iters| && |GenIters(iters, s).regs| == |iters|
    ensures var g := GenIters(iters, s); iters[k].v in g.s.env && g.s.env[iters[k].v] == g.regs[k]
    decreases |iters|
  {
    hide Good, Extends, BuiltinKinds, EmitCall, RegOf, PlainValues;
    ItersSplit(iters, s, fin, kinds);
    ItersCons(iters);
    var (r, s1) := RegOf(iters[0].init, AllocBind(s, iters[0].v));
    var c := EmitBuiltin(s.next, Identity, [r], s1);
    assert forall j :: 0 <= j < |iters| - 1 ==> IterVars(iters[1..])[j] == IterVars(iters)[j + 1];
    if k > 0 {
      ItersBound(iters[1..], c.s, fin, k - 1, kinds);
    } else {
      GenItersOk(iters[1..], c.s, kinds);
      assert iters[0].v !in Ids(IterVars(iters[1..])) by {
        assert forall j :: 0 < j < |iters| ==> IterVars(iters)[j] != IterVars(iters)[0];
      }
    }
  }

  /** The first carried variable alone. */
  lemma IterPlaced(it: IterArg, s: State, s': State, fin: State, kinds: Kinds)
    requires Good(s, kinds) && BuiltinKinds(kinds) && PlainValue(it.init, kinds) && Extends(s', fin)
    requires var (r, s1) := RegOf(it.init, AllocBind(s, it.v)); s' == EmitBuiltin(s.next, Identity, [r], s1).s
    ensures s.next < s'.next && s.next !in ConstSet(fin) && it.v in s'.env && s'.env[it.v] == s.next
  {
    var s0 := AllocBind(s, it.v);
    var (r, s1) := RegOf(it.init, s0);
    AllocBindOk(s, it.v, kinds);
    RegOfOk(it.init, s0, kinds);
    EmitCallOk(s.next, Builtin, Core(Identity), [r], [], s1, kinds);
    ExtendsTrans(s0, s1, s');
    ExtendsTrans(s0, s', fin);
    FreshNotConst(s, s0, fin, kinds);
  }

  ghost predicate SubEnv(E: Env, E0: Env) {
    forall id :: id in E ==> id in E0 && E0[id] == E[id]
  }

  /** One identity copy into a freshly bound register. */
  lemma {:induction false} IterRuns(P: Code, it: IterArg, x: Val, s: State, fin: State, E: Env, E0: Env, pc: int,
                                    R: seq<Val>, w: World, kinds: Kinds)
    requires Ready(P, s, fin, E0, R, kinds) && BuiltinKinds(kinds) && OkValue(it.init, E.Keys, kinds) && SubEnv(E, E0)
    requires it.v !in E && EvalValue(P.M.host, it.init, E) == Some(x)
    requires var (r, s1) := RegOf(it.init, AllocBind(s, it.v));
      var c := EmitBuiltin(s.next, Identity, [r], s1); Extends(c.s, fin) && At(P.instrs, pc, c.code)
    ensures var (r, s1) := RegOf(it.init, AllocBind(s, it.v));
      var c := EmitBuiltin(s.next, Identity, [r], s1);
      |c.code| == 1 && s.next < |R| && Steps(P, Running(pc, R, w), 1) == Running(pc + 1, R[s.next := x], w) &&
      Ready(P, c.s, fin, E0[it.v := x], R[s.next := x], kinds) && Same(R, R[s.next := x], s.next, c.s.next, fin)
  {
    var s0 := AllocBind(s, it.v);
    var (r, s1) := RegOf(it.init, s0);
    var c := EmitBuiltin(s.next, Identity, [r], s1);
    AllocBindOk(s, it.v, kinds);
    GenIterOk(it, s, kinds);
    IterPlaced(it, s, c.s, fin, kinds);
    RegOfOk(it.init, s0, kinds);
    EmitCallOk(s.next, Builtin, Core(Identity), [r], [], s1, kinds);
    NextInRange(P.M.host, s, c.s, fin, R);
    CopyRuns(P, s.next, it.init, x, s0, fin, pc, R, w, kinds);
    WriteSame(R, s.next, x, s.next, c.s.next, fin);
    LoadedSame(P.M.host, R, R[s.next := x], s.next, c.s.next, fin);
    AgreeDefine(s, c.s, E0, R, it.v, x);
  }

  lemma {:induction false} ItersRun(P: Code, iters: seq<IterArg>, xs: seq<Val>, s: State, fin: State, E: Env, E0: Env,
                                    pc: int, R: seq<Val>, w: World, kinds: Kinds)
    returns (n: nat, R': seq<Val>)
    requires Ready(P, s, fin, E0, R, kinds) && BuiltinKinds(kinds) && OkValues(IterInits(iters), E.Keys, kinds)
    requires SubEnv(E, E0)
    requires (forall it <- iters :: it.v !in E) && EvalValues(P.M.host, IterInits(iters), E) == Some(xs)
    requires var g := GenIters(iters, s); Extends(g.s, fin) && At(P.instrs, pc, g.code)
    ensures ItersDone(Stretch(P, pc, R, w, n, |GenIters(iters, s).code|, R'), iters, xs, s, fin, E0, kinds)
    decreases |iters|
  {
    n, R' := 0, R;
    if iters == [] {
    } else {
      n, R' := ItersConsRun(P, iters, xs, s, fin, E, E0, pc, R, w, kinds);
    }
  }

  ghost predicate ItersDone(r: Stretch, iters: seq<IterArg>, xs: seq<Val>, s: State, fin: State, E0: Env, kinds: Kinds)
    requires |xs| == |iters|
  {
    var g := GenIters(iters, s);
    Passes(r, s.next, g.s.next, fin) && r.len == |g.code| &&
    Ready(r.P, g.s, fin, BindAll(E0, IterVars(iters), xs), r.R', kinds)
  }

  /** Code that leaves the world alone and writes only new registers. */
  ghost predicate Passes(r: Stretch, lo: nat, hi: nat, fin: State) {
    Steps(r.P, Running(r.pc, r.R, r.w), r.n) == Running(r.pc + r.len, r.R', r.w) &&
    |r.R'| == |r.R| && Same(r.R, r.R', lo, hi, fin)
  }

  lemma {:induction false} ItersConsRun(P: Code, iters: seq<IterArg>, xs: seq<Val>, s: State, fin: State, E: Env,
                                        E0: Env, pc: int, R: seq<Val>, w: World, kinds: Kinds)
    returns (n: nat, R': seq<Val>)
    requires iters != []
    requires Ready(P, s, fin, E0, R, kinds) && BuiltinKinds(kinds) && OkValues(IterInits(iters), E.Keys, kinds)
    requires SubEnv(E, E0)
    requires (forall it <- iters :: it.v !in E) && EvalValues(P.M.host, IterInits(iters), E) == Some(xs)
    requires var g := GenIters(iters, s); Extends(g.s, fin) && At(P.instrs, pc, g.code)
    ensures ItersDone(Stretch(P, pc, R, w, n, |GenIters(iters, s).code|, R'), iters, xs, s, fin, E0, kinds)
    decreases |iters|, 0
  {
    hide Good, Extends, Loaded, Agree, Same, Steps, At, EmitCall, OkValues, OkValue, EvalValues, ItersDone;
    var (r, s1) := RegOf(iters[0].init, AllocBind(s, iters[0].v));
    var c := EmitBuiltin(s.next, Identity, [r], s1);
    InitsTail(iters, E.Keys, kinds);
    OkValuesPlain(IterInits(iters), E.Keys, kinds);
    ItersSplit(iters, s, fin, kinds);
    ExtendsTail(iters, s, fin, kinds);
    AtParts(P.instrs, pc, c.code, GenIters(iters[1..], c.s).code);
    EvalValuesCons(P.M.host, IterInits(iters), E);
    IterRuns(P, iters[0], xs[0], s, fin, E, E0, pc, R, w, kinds);
    var R1 := R[s.next := xs[0]];
    var n2, R2 := ItersRun(P, iters[1..], xs[1..], c.s, fin, E, E0[iters[0].v := xs[0]], pc + 1, R1, w, kinds);
    n, R' := 1 + n2, R2;
    ItersJoin(P, iters, xs, s, c.s, c.code, fin, E0, pc, R, w, R1, n2, R2, kinds);
  }

  lemma {:induction false} ExtendsTail(iters: seq<IterArg>, s: State, fin: State, kinds: Kinds)
    requires iters != [] && Good(s, kinds) && BuiltinKinds(kinds) && PlainValues(IterInits(iters), kinds)
    requires Extends(GenIters(iters, s).s, fin)
    ensures var (r, s1) := RegOf(iters[0].init, AllocBind(s, iters[0].v));
      Extends(EmitBuiltin(s.next, Identity, [r], s1).s, fin)
  {
    hide Good, Extends, EmitCall, RegOf;
    var (r, s1) := RegOf(iters[0].init, AllocBind(s, iters[0].v));
    var c := EmitBuiltin(s.next, Identity, [r], s1);
    ItersSplit(iters, s, fin, kinds);
    GenItersOk(iters[1..], c.s, kinds);
    ExtendsTrans(c.s, GenIters(iters[1..], c.s).s, fin);
  }

  lemma {:induction false} BindItersCons(E: Env, iters: seq<IterArg>, xs: seq<Val>)
    requires iters != [] && |xs| == |iters|
    ensures BindAll(E, IterVars(iters), xs) == BindAll(E[iters[0].v := xs[0]], IterVars(iters[1..]), xs[1..])
  {
    ItersCons(iters);
    assert IterVars(iters)[1..] == IterVars(iters[1..]);
  }

  lemma {:induction false} ItersJoin(P: Code, iters: seq<IterArg>, xs: seq<Val>, s: State, mid: State, code: seq<Instr>,
                                     fin: State, E0: Env, pc: int, R: seq<Val>, w: World, R1: seq<Val>, n2: nat,
                                     R2: seq<Val>, kinds: Kinds)
    requires iters != [] && |xs| == |iters| && |code| == 1 && |R1| == |R|
    requires GenIters(iters, s).s == GenIters(iters[1..], mid).s
    requires GenIters(iters, s).code == code + GenIters(iters[1..], mid).code
    requires s.next <= mid.next <= GenIters(iters, s).s.next
    requires Steps(P, Running(pc, R, w), 1) == Running(pc + 1, R1, w) && Same(R, R1, s.next, mid.next, fin)
    requires ItersDone(Stretch(P, pc + 1, R1, w, n2, |GenIters(iters[1..], mid).code|, R2), iters[1..], xs[1..], mid,
                       fin, E0[iters[0].v := xs[0]], kinds)
    ensures ItersDone(Stretch(P, pc, R, w, 1 + n2, |GenIters(iters, s).code|, R2), iters, xs, s, fin, E0, kinds)
  {
    hide Good, Extends, Loaded, Agree, Same, Steps, GenIters, Ready, BindAll;
    BindItersCons(E0, iters, xs);
    StepsAdd(P, Running(pc, R, w), 1, n2);
    SameTrans(R, R1, R2, s.next, mid.next, mid.next, GenIters(iters, s).s.next, fin);
    assert |GenIters(iters, s).code| == 1 + |GenIters(iters[1..], mid).code|;
  }

  lemma {:induction false} EvalValuesCons(h: Host, vs: seq<Value>, E: Env)
    requires vs != [] && EvalValues(h, vs, E).Some?
    ensures EvalValue(h, vs[0], E) == Some(EvalValues(h, vs, E).value[0])
    ensures EvalValues(h, vs[1..], E) == Some(EvalValues(h, vs, E).value[1..])
  {
  }

  lemma InitsTail(iters: seq<IterArg>, scope: set<nat>, kinds: Kinds)
    requires iters != [] && OkValues(IterInits(iters), scope, kinds)
    ensures OkValue(iters[0].init, scope, kinds) && OkValues(IterInits(iters[1..]), scope, kinds)
    ensures PlainValues(IterInits(iters[1..]), kinds)
    ensures IterInits(iters)[1..] == IterInits(iters[1..])
  {
    assert IterInits(iters)[0] == iters[0].init;
    forall k | 0 <= k < |iters| - 1 ensures OkValue(IterInits(iters[1..])[k], scope, kinds) {
      assert IterInits(iters[1..])[k] == IterInits(iters)[k + 1];
    }
  }

  // ---------------------------------------------------------------- before the loop

  /** The three bounds, each read before the index gets its register. */
  lemma BoundsHold(P: Code, op: Op, s: State, fin: State, E: Env, R: seq<Val>, kinds: Kinds)
    requires op.ForOp? && Ready(P, s, fin, E, R, kinds)
    requires OkValue(op.start, E.Keys, kinds) && OkValue(op.end, E.Keys, kinds) && OkValue(op.step, E.Keys, kinds)
    requires IntegralBound(op.start) && IntegralBound(op.end) && IntegralBound(op.step)
    requires var s1 := BoundReg(op.start, s).1; var s2 := BoundReg(op.end, s1).1; Extends(BoundReg(op.step, s2).1, fin)
    ensures var (first, s1) := BoundReg(op.start, s); var (last, s2) := BoundReg(op.end, s1);
      var (inc, s3) := BoundReg(op.step, s2);
      EvalBound(P.M.host, op.start, E).Some? && EvalBound(P.M.host, op.end, E).Some? &&
      EvalBound(P.M.host, op.step, E).Some? &&
      Advances(s, s3, {}, kinds) && s3.env == s.env && Ready(P, s3, fin, E, R, kinds) &&
      first < s3.next && last < s3.next && inc < s3.next && s3.next <= |R| &&
      R[first] == EvalBound(P.M.host, op.start, E).value && R[last] == EvalBound(P.M.host, op.end, E).value &&
        R[inc] == EvalBound(P.M.host, op.step, E).value
  {
    hide Good, Extends, Loaded, Agree, BoundReg, EvalBound, OkValue;
    var (first, s1) := BoundReg(op.start, s);
    var (last, s2) := BoundReg(op.end, s1);
    var (inc, s3) := BoundReg(op.step, s2);
    OkPlain(op.start, E.Keys, kinds);
    OkPlain(op.end, E.Keys, kinds);
    OkPlain(op.step, E.Keys, kinds);
    BoundRegOk(op.start, s, kinds);
    BoundRegOk(op.end, s1, kinds);
    BoundRegOk(op.step, s2, kinds);
    ExtendsTrans(s2, s3, fin);
    ExtendsTrans(s1, s2, fin);
    ReadyGood(P, s, s1, fin, E, R, kinds);
    ReadyGood(P, s1, s2, fin, E, R, kinds);
    ReadyGood(P, s2, s3, fin, E, R, kinds);
    BoundRegHolds(P, op.start, s, fin, E, R, kinds);
    BoundRegHolds(P, op.end, s1, fin, E, R, kinds);
    BoundRegHolds(P, op.step, s2, fin, E, R, kinds);
    AdvancesTrans(s, s1, s2, {}, {}, kinds);
    AdvancesTrans(s, s2, s3, {}, {}, kinds);
    RoomFor(P.M.host, s3, fin, R);
  }

  lemma OkPlain(v: Value, scope: set<nat>, kinds: Kinds)
    requires OkValue(v, scope, kinds)
    ensures PlainValue(v, kinds)
  {
  }

  lemma RoomFor(h: Host, s: State, fin: State, R: seq<Val>)
    requires Extends(s, fin) && Loaded(h, R, fin)
    ensures s.next <= |R|
  {
  }

  lemma ReadyGood(P: Code, s: State, s': State, fin: State, E: Env, R: seq<Val>, kinds: Kinds)
    requires Ready(P, s, fin, E, R, kinds) && Advances(s, s', {}, kinds) && s'.env == s.env
    ensures Ready(P, s', fin, E, R, kinds)
  {
  }

  /** The index starts as a copy of the first bound. */
  lemma {:induction false} IndexRuns(P: Code, id: nat, reg: nat, x: Val, s: State, fin: State, E: Env, pc: int,
                                     R: seq<Val>, w: World, kinds: Kinds)
    requires Ready(P, s, fin, E, R, kinds) && BuiltinKinds(kinds) && id !in E && reg < s.next && s.next <= |R|
    requires R[reg] == x
    requires var c := EmitBuiltin(s.next, Identity, [reg], AllocBind(s, id));
      Extends(c.s, fin) && At(P.instrs, pc, c.code)
    ensures var c := EmitBuiltin(s.next, Identity, [reg], AllocBind(s, id));
      |c.code| == 1 && s.next < |R| && Steps(P, Running(pc, R, w), 1) == Running(pc + 1, R[s.next := x], w) &&
      Ready(P, c.s, fin, E[id := x], R[s.next := x], kinds) && Same(R, R[s.next := x], s.next, c.s.next, fin) &&
      s.next !in ConstSet(fin) && c.s.next == s.next + 1 && Advances(s, c.s, {id}, kinds) && c.s.env[id] == s.next
  {
    hide Plain, UniqueNames, Ascending;
    var s0 := AllocBind(s, id);
    var c := EmitBuiltin(s.next, Identity, [reg], s0);
    AllocBindOk(s, id, kinds);
    EmitCallOk(s.next, Builtin, Core(Identity), [reg], [], s0, kinds);
    AdvancesTrans(s, s0, c.s, {id}, {}, kinds);
    FreshNotConst(s, c.s, fin, kinds);
    NextInRange(P.M.host, s, c.s, fin, R);
    assert RegsHold([reg], [x], R);
    BuiltinRuns(P, pc, R, w, s.next, Identity, [reg], [x], s0, kinds);
    WriteSame(R, s.next, x, s.next, c.s.next, fin);
    LoadedSame(P.M.host, R, R[s.next := x], s.next, c.s.next, fin);
    AgreeDefine(s, c.s, E, R, id, x);
  }

  lemma EntryRuns(P: Code, op: Op, s: State, taken: set<nat>, fin: State, E: Env, pc: int, R: seq<Val>, w: World,
                  kinds: Kinds)
    returns (n: nat, R': seq<Val>)
    requires op.ForOp? && Ready(P, s, fin, E, R, kinds) && BuiltinKinds(kinds) && WfOp(op, E.Keys, taken, kinds)
    requires E.Keys <= taken
    requires var h := GenLoopEntry(op, s); Extends(h.s, fin) && At(P.instrs, pc, h.code)
    ensures EvalBound(P.M.host, op.start, E).Some? && EvalBound(P.M.host, op.end, E).Some?
    ensures EvalBound(P.M.host, op.step, E).Some?
    ensures EvalValues(P.M.host, IterInits(op.iters), E).Some?
    ensures var h := GenLoopEntry(op, s);
      HeadOk(op, h, fin, E) && Passes(Stretch(P, pc, R, w, n, |h.code|, R'), s.next, h.s.next, fin)
    ensures var h := GenLoopEntry(op, s);
      Ready(P, h.s, fin,
            LoopEnv(op, E, EvalBound(P.M.host, op.start, E).value, EvalValues(P.M.host, IterInits(op.iters), E).value),
            R', kinds) &&
      Bounds(h, EvalBound(P.M.host, op.end, E).value, EvalBound(P.M.host, op.step, E).value, R')
  {
    hide Good, Extends, Loaded, Agree, Steps, At, Same, EmitCall, EvalBound, BoundReg, WfBlock, HeadOk, CopySafe,
         OkValue, OkValues, PlainValues, WfOp, EvalValues, GenIters;
    var (first, s1) := BoundReg(op.start, s);
    var (last, s2) := BoundReg(op.end, s1);
    var (inc, s3) := BoundReg(op.step, s2);
    var c := EmitBuiltin(s3.next, Identity, [first], AllocBind(s3, op.loopVar));
    var its := GenIters(op.iters, c.s);
    var h := GenLoopEntry(op, s);
    LoopIds(op, E.Keys, taken, kinds);
    EntryExtends(op, s, fin, E.Keys, taken, kinds);
    BoundsHold(P, op, s, fin, E, R, kinds);
    AtParts(P.instrs, pc, c.code, its.code);
    IndexRuns(P, op.loopVar, first, EvalBound(P.M.host, op.start, E).value, s3, fin, E, pc, R, w, kinds);
    var x := EvalBound(P.M.host, op.start, E).value;
    var R1 := R[s3.next := x];
    OkEvals(P.M.host, IterInits(op.iters), E, kinds);
    var xs := EvalValues(P.M.host, IterInits(op.iters), E).value;
    var n2, R2 := ItersRun(P, op.iters, xs, c.s, fin, E, E[op.loopVar := x], pc + 1, R1, w, kinds);
    n, R' := 1 + n2, R2;
    StepsAdd(P, Running(pc, R, w), 1, n2);
    AgreeKeys(s, E, R);
    HeadPlaced(op, s, s3, c.s, fin, E, taken, kinds);
    EntryJoin(op, s, s3, c.s, fin, R, R1, R2, last, inc);
  }

  /** The ids a loop introduces are new. */
  lemma {:induction false} LoopIds(op: Op, scope: set<nat>, taken: set<nat>, kinds: Kinds)
    requires op.ForOp? && WfOp(op, scope, taken, kinds) && scope <= taken
    ensures op.loopVar !in scope && (forall it <- op.iters :: it.v !in scope && it.v != op.loopVar)
    ensures Distinct(IterVars(op.iters)) && OkValues(IterInits(op.iters), scope, kinds)
    ensures PlainValues(IterInits(op.iters), kinds)
    ensures OkValue(op.start, scope, kinds) && OkValue(op.end, scope, kinds) && OkValue(op.step, scope, kinds)
    ensures IntegralBound(op.start) && IntegralBound(op.end) && IntegralBound(op.step)
  {
    var all := [op.loopVar] + IterVars(op.iters);
    assert all[0] == op.loopVar;
    forall k | 0 <= k < |op.iters| ensures op.iters[k].v !in scope && op.iters[k].v != op.loopVar {
      assert all[k + 1] == op.iters[k].v;
    }
    forall i, j | 0 <= i < j < |op.iters| ensures IterVars(op.iters)[i] != IterVars(op.iters)[j] {
      assert all[i + 1] == IterVars(op.iters)[i] && all[j + 1] == IterVars(op.iters)[j];
    }
  }

  lemma {:induction false} EntryExtends(op: Op, s: State, fin: State, scope: set<nat>, taken: set<nat>, kinds: Kinds)
    requires op.ForOp? && Good(s, kinds) && BuiltinKinds(kinds) && WfOp(op, scope, taken, kinds) && scope <= taken
    requires Extends(GenLoopEntry(op, s).s, fin)
    ensures var (first, s1) := BoundReg(op.start, s); var (last, s2) := BoundReg(op.end, s1);
      var (inc, s3) := BoundReg(op.step, s2);
      var c := EmitBuiltin(s3.next, Identity, [first], AllocBind(s3, op.loopVar));
      Good(s3, kinds) && Good(c.s, kinds) && Extends(s3, fin) && Extends(c.s, fin) &&
        c.s.next <= GenLoopEntry(op, s).s.next
  {
    hide Good, Extends, EmitCall, BoundReg, WfBlock, CopySafe, OkValue;
    var (first, s1) := BoundReg(op.start, s);
    var (last, s2) := BoundReg(op.end, s1);
    var (inc, s3) := BoundReg(op.step, s2);
    var s4 := AllocBind(s3, op.loopVar);
    var c := EmitBuiltin(s3.next, Identity, [first], s4);
    LoopIds(op, scope, taken, kinds);
    OkPlain(op.start, scope, kinds);
    OkPlain(op.end, scope, kinds);
    OkPlain(op.step, scope, kinds);
    BoundRegOk(op.start, s, kinds);
    BoundRegOk(op.end, s1, kinds);
    BoundRegOk(op.step, s2, kinds);
    AllocBindOk(s3, op.loopVar, kinds);
    EmitCallOk(s3.next, Builtin, Core(Identity), [first], [], s4, kinds);
    GenItersOk(op.iters, c.s, kinds);
    ExtendsTrans(c.s, GenLoopEntry(op, s).s, fin);
    ExtendsTrans(s4, c.s, fin);
    ExtendsTrans(s3, s4, fin);
  }

  lemma AgreeKeys(s: State, E: Env, R: seq<Val>)
    requires Agree(s, E, R)
    ensures E.Keys <= s.env.Keys
  {
  }

  lemma {:induction false} HeadPlaced(op: Op, s: State, s3: State, c: State, fin: State, E: Env, taken: set<nat>,
                                      kinds: Kinds)
    requires op.ForOp? && WfOp(op, E.Keys, taken, kinds) && E.Keys <= taken && BuiltinKinds(kinds)
    requires Good(s, kinds) && Good(c, kinds) && Advances(s, s3, {}, kinds) && s3.env == s.env && E.Keys <= s.env.Keys
    requires Advances(s3, c, {op.loopVar}, kinds) && c.env[op.loopVar] == s3.next && c.next == s3.next + 1
    requires s3.next !in ConstSet(fin)
    requires var h := GenLoopEntry(op, s);
      h.s == GenIters(op.iters, c).s && h.iters == GenIters(op.iters, c).regs && h.index == s3.next &&
      Extends(h.s, fin) &&
      h.last < s3.next && h.inc < s3.next
    ensures HeadOk(op, GenLoopEntry(op, s), fin, E)
  {
    hide Good, Extends, GenIters, GenLoopEntry, BuiltinKinds, CopySafe, WfOp, ConstSet;
    var h := GenLoopEntry(op, s);
    LoopIds(op, E.Keys, taken, kinds);
    GenItersOk(op.iters, c, kinds);
    ItersPlaced(op.iters, c, fin, kinds);
    forall k | 0 <= k < |op.iters| ensures op.iters[k].v in h.s.env && h.s.env[op.iters[k].v] == h.iters[k] {
      ItersBound(op.iters, c, fin, k, kinds);
    }
    forall k | 0 <= k < |h.iters| ensures h.index < h.iters[k] < h.s.next && h.iters[k] !in ConstSet(fin) {
      assert h.iters[k] in h.iters;
    }
    EntryEnv(op, s, s3, c, h.s, E, kinds);
  }

  lemma EntryJoin(op: Op, s: State, s3: State, c: State, fin: State, R: seq<Val>, R1: seq<Val>, R2: seq<Val>, last: nat,
                  inc: nat)
    requires op.ForOp? && s.next <= s3.next <= c.next <= GenLoopEntry(op, s).s.next
    requires last < s3.next && inc < s3.next && s3.next < |R| == |R1| == |R2|
    requires Same(R, R1, s3.next, c.next, fin) && Same(R1, R2, c.next, GenLoopEntry(op, s).s.next, fin)
    ensures R2[last] == R[last] && R2[inc] == R[inc] && Same(R, R2, s.next, GenLoopEntry(op, s).s.next, fin)
  {
    hide GenLoopEntry;
  }

  lemma EntryEnv(op: Op, s: State, s3: State, c: State, h: State, E: Env, kinds: Kinds)
    requires op.ForOp? && Good(s, kinds) && Advances(s, s3, {}, kinds) && s3.env == s.env && E.Keys <= s.env.Keys
    requires Advances(s3, c, {op.loopVar}, kinds) && Advances(c, h, Ids(IterVars(op.iters)), kinds)
    requires op.loopVar !in E && forall it <- op.iters :: it.v !in E && it.v != op.loopVar
    ensures op.loopVar in h.env && h.env[op.loopVar] == c.env[op.loopVar]
    ensures forall id :: id in E ==> id in h.env && h.env[id] < s3.next
  {
    assert forall id <- IterVars(op.iters) :: id !in E && id != op.loopVar;
  }

  // ---------------------------------------------------------------- the loop

  /** The registers of a loop's end and step hold them. */
  ghost predicate Bounds(h: LoopHead, last: Val, inc: Val, R: seq<Val>) {
    h.index < |R| && h.last < |R| && h.inc < |R| && R[h.last] == last && R[h.inc] == inc
  }

  /** The registers of the index and the carried variables hold their current values. */
  lemma LoopRegs(P: Code, op: Op, h: LoopHead, fin: State, E: Env, i: Val, vals: seq<Val>, R: seq<Val>, kinds: Kinds)
    requires op.ForOp? && |vals| == |op.iters| && HeadOk(op, h, fin, E)
    requires Ready(P, h.s, fin, LoopEnv(op, E, i, vals), R, kinds)
    requires Distinct(IterVars(op.iters)) && forall it <- op.iters :: it.v != op.loopVar
    ensures h.index < |R| && R[h.index] == i && RegsHold(h.iters, vals, R)
  {
    var E0 := E[op.loopVar := i];
    BindAllOther(E0, IterVars(op.iters), vals, op.loopVar);
    forall k | 0 <= k < |vals| ensures h.iters[k] < |R| && R[h.iters[k]] == vals[k] {
      BindAllAt(E0, IterVars(op.iters), vals, k);
    }
  }

  /** The header: compare, then enter the body or leave. */
  lemma LoopTest(P: Code, op: Op, h: LoopHead, fin: State, E: Env, i: Val, vals: seq<Val>, last: Val, inc: Val,
                 skip: int, pc: int, R: seq<Val>, w: World, kinds: Kinds)
    returns (n: nat, R': seq<Val>)
    requires op.ForOp? && |vals| == |op.iters| && HeadOk(op, h, fin, E)
    requires Ready(P, h.s, fin, LoopEnv(op, E, i, vals), R, kinds) && Bounds(h, last, inc, R)
    requires BuiltinKinds(kinds)
    requires Distinct(IterVars(op.iters)) && forall it <- op.iters :: it.v != op.loopVar
    requires var t := EmitFresh(LtI64, [h.index, h.last], h.s);
      Extends(t.s, fin) && At(P.instrs, pc, t.code + [IfInstr(t.reg, 1, skip)])
    ensures var t := EmitFresh(LtI64, [h.index, h.last], h.s);
      match CallBuiltin(P.M.host, LtI64, [i, last])
      case None => Steps(P, Running(pc, R, w), n) == Failed(w)
      case Some(v) =>
        v.VBool? && n == 2 && Steps(P, Running(pc, R, w), n) == Running(pc + 1 + (if v.b then 1 else skip), R', w) &&
        |R'| == |R| && Same(R, R', h.s.next, t.s.next, fin) &&
        HeadOk(op, h, fin, E) && Ready(P, h.s, fin, LoopEnv(op, E, i, vals), R', kinds) && Bounds(h, last, inc, R') &&
        Ready(P, t.s, fin, LoopEnv(op, E, i, vals), R', kinds)
  {
    hide Good, Extends, Loaded, Agree, Steps, EmitFresh, Same, BindAll;
    var t := EmitFresh(LtI64, [h.index, h.last], h.s);
    EmitFreshOk(LtI64, [h.index, h.last], h.s, kinds);
    LoopRegs(P, op, h, fin, E, i, vals, R, kinds);
    AtParts(P.instrs, pc, t.code, [IfInstr(t.reg, 1, skip)]);
    assert RegsHold([h.index, h.last], [i, last], R);
    n := 1;
    R' := FreshRuns(P, pc, R, w, LtI64, [h.index, h.last], [i, last], h.s, fin, kinds);
    if CallBuiltin(P.M.host, LtI64, [i, last]).Some? {
      var v := CallBuiltin(P.M.host, LtI64, [i, last]).value;
      IfStep(P, pc + 1, R', w, t.reg, 1, skip, v);
      StepsAdd(P, Running(pc, R, w), 1, 1);
      n := 2;
      ReadySame(P, h.s, h.s, fin, LoopEnv(op, E, i, vals), R, R', t.s.next, kinds);
      ReadySame(P, h.s, t.s, fin, LoopEnv(op, E, i, vals), R, R', t.s.next, kinds);
      SameAt(R, R', h.s.next, t.s.next, fin, h.last);
      SameAt(R, R', h.s.next, t.s.next, fin, h.inc);
    }
  }

  lemma SameAt(R: seq<Val>, R': seq<Val>, lo: nat, hi: nat, fin: State, r: nat)
    requires Same(R, R', lo, hi, fin) && r < lo && r < |R|
    ensures r < |R'| && R'[r] == R[r]
  {
  }

  /** Increment and jump back. */
  lemma {:induction false} LoopBack(P: Code, h: LoopHead, s: State, i: Val, inc: Val, back: int, pc: int, R: seq<Val>,
                                    w: World, kinds: Kinds)
    requires Good(s, kinds) && BuiltinKinds(kinds) && h.index < |R| && h.inc < |R| && R[h.index] == i && R[h.inc] == inc
    requires var c := EmitBuiltin(h.index, AddI64, [h.index, h.inc], s);
      c.s.funcs <= P.funcs && At(P.instrs, pc, c.code + [GotoInstr(back)])
    ensures match CallBuiltin(P.M.host, AddI64, [i, inc])
      case None => Steps(P, Running(pc, R, w), 1) == Failed(w)
      case Some(v) => Steps(P, Running(pc, R, w), 2) == Running(pc + 1 + back, R[h.index := v], w)
  {
    var c := EmitBuiltin(h.index, AddI64, [h.index, h.inc], s);
    EmitCallOk(h.index, Builtin, Core(AddI64), [h.index, h.inc], [], s, kinds);
    AtParts(P.instrs, pc, c.code, [GotoInstr(back)]);
    assert RegsHold([h.index, h.inc], [i, inc], R);
    BuiltinRuns(P, pc, R, w, h.index, AddI64, [h.index, h.inc], [i, inc], s, kinds);
    if CallBuiltin(P.M.host, AddI64, [i, inc]).Some? {
      var st := Running(pc + 1, R[h.index := CallBuiltin(P.M.host, AddI64, [i, inc]).value], w);
      AtHead(P.instrs, pc + 1, GotoInstr(back));
      assert Steps(P, Step(P, st), 0) == Step(P, st);
      StepsAdd(P, Running(pc, R, w), 1, 1);
    }
  }

  /** What the body yields may be copied to the carried registers one by one. */
  lemma {:induction false} LoopSafe(op: Op, h: LoopHead, s: State, scope: set<nat>, taken: set<nat>, fin: State, E: Env,
                                    kinds: Kinds)
    requires op.ForOp? && HeadOk(op, h, fin, E) && Good(s, kinds) && BuiltinKinds(kinds) && s.env == h.s.env
    requires h.s.next <= s.next
    requires WfOp(op, E.Keys, taken, kinds) && E.Keys <= taken
    requires scope == E.Keys + Ids([op.loopVar] + IterVars(op.iters))
    ensures |op.body.yielded| == |h.iters| && SafeTargets(op.body.yielded, h.iters, GenOps(op.body.ops, s).s)
  {
    var inner := Ids([op.loopVar] + IterVars(op.iters));
    var s' := GenOps(op.body.ops, s).s;
    var y := op.body.yielded;
    GenOpsOk(op.body.ops, s, scope, taken + inner, kinds);
    BindsOpsFresh(op.body.ops, scope, taken + inner, kinds);
    forall i, j | 0 <= i < j < |y| && !y[j].Imm? && Lookup(s', y[j].id) == h.iters[i]
      ensures !y[i].Imm? && y[i].id == y[j].id
    {
      var id := y[j].id;
      assert OkValue(y[j], scope + DefinesOps(op.body.ops), kinds);
      LoopTarget(op, h, s, s', scope, taken, fin, E, id, i, kinds);
      assert id == IterVars(op.iters)[i];
    }
  }

  /** A visible id sitting in a carried register is that carried variable. */
  lemma LoopTarget(op: Op, h: LoopHead, s: State, s': State, scope: set<nat>, taken: set<nat>, fin: State, E: Env,
                   id: nat, i: nat, kinds: Kinds)
    requires op.ForOp? && HeadOk(op, h, fin, E) && s.env == h.s.env && h.s.next <= s.next && E.Keys <= taken
    requires scope == E.Keys + Ids([op.loopVar] + IterVars(op.iters))
    requires Advances(s, s', BindsOps(op.body.ops), kinds) && DefinesOps(op.body.ops) <= BindsOps(op.body.ops)
    requires BindsOps(op.body.ops) !! taken + Ids([op.loopVar] + IterVars(op.iters))
    requires id in scope + DefinesOps(op.body.ops) && i < |h.iters| && Lookup(s', id) == h.iters[i]
    ensures id == op.iters[i].v
  {
    IdsCons(op.loopVar, IterVars(op.iters));
    assert id in BindsOps(op.body.ops) ==> Lookup(s', id) >= s.next;
    if id in Ids(IterVars(op.iters)) {
      var k :| 0 <= k < |op.iters| && IterVars(op.iters)[k] == id;
      assert op.iters[k].v == id && s'.env[id] == h.iters[k];
    }
  }

  /** After the body and the increment the loop is ready for its next iteration. */
  lemma LoopNext(P: Code, op: Op, h: LoopHead, s: State, s': State, fin: State, E: Env, i: Val, vals: seq<Val>,
                 last: Val, inc: Val, R: seq<Val>, R2: seq<Val>, next: seq<Val>, i': Val, kinds: Kinds)
    requires op.ForOp? && |vals| == |op.iters| == |next| && HeadOk(op, h, fin, E)
    requires Ready(P, h.s, fin, LoopEnv(op, E, i, vals), R, kinds) && Bounds(h, last, inc, R)
    requires Distinct(IterVars(op.iters)) && op.loopVar !in E
    requires forall it <- op.iters :: it.v !in E && it.v != op.loopVar
    requires h.s.next <= s.next <= s'.next && SameBut(R, R2, h.iters, s.next, s'.next, fin)
    requires RegsHold(h.iters, next, R2)
    ensures h.index < |R2| && h.inc < |R2| && R2[h.index] == i && R2[h.inc] == inc
    ensures HeadOk(op, h, fin, E) && Ready(P, h.s, fin, LoopEnv(op, E, i', next), R2[h.index := i'], kinds)
    ensures Bounds(h, last, inc, R2[h.index := i'])
    ensures SameBut(R, R2[h.index := i'], h.iters, h.index, s'.next, fin)
  {
    hide Good, Extends, LoopEnv;
    LoopRegs(P, op, h, fin, E, i, vals, R, kinds);
    LoopFrame(op, h, s, s', fin, E, R, R2, i');
    LoopLoaded(P.M.host, R, R2, h, i', s.next, s'.next, fin);
    LoopAgree(op, h, fin, E, i, vals, R, R2, next, i', s.next, s'.next);
  }

  lemma LoopFrame(op: Op, h: LoopHead, s: State, s': State, fin: State, E: Env, R: seq<Val>, R2: seq<Val>, v: Val)
    requires HeadOk(op, h, fin, E) && h.index < |R|
    requires h.s.next <= s.next <= s'.next && SameBut(R, R2, h.iters, s.next, s'.next, fin)
    ensures forall r :: 0 <= r <= h.index ==> r < |R2| && R2[r] == R[r]
    ensures SameBut(R, R2[h.index := v], h.iters, h.index, s'.next, fin)
  {
    assert forall r :: r <= h.index ==> r !in h.iters;
  }

  lemma LoopAgree(op: Op, h: LoopHead, fin: State, E: Env, i: Val, vals: seq<Val>, R: seq<Val>, R2: seq<Val>,
                  next: seq<Val>, i': Val, lo: nat, hi: nat)
    requires HeadOk(op, h, fin, E) && |vals| == |op.iters| == |next| && Agree(h.s, LoopEnv(op, E, i, vals), R)
    requires h.index < |R| == |R2|
    requires Distinct(IterVars(op.iters)) && op.loopVar !in E
    requires forall it <- op.iters :: it.v !in E && it.v != op.loopVar
    requires RegsHold(h.iters, next, R2) && forall r :: 0 <= r <= h.index ==> R2[r] == R[r]
    ensures Agree(h.s, LoopEnv(op, E, i', next), R2[h.index := i'])
  {
    var R3 := R2[h.index := i'];
    var E' := LoopEnv(op, E, i', next);
    BindAllKeys(E[op.loopVar := i'], IterVars(op.iters), next);
    forall id | id in E' ensures id in h.s.env && h.s.env[id] < |R3| && R3[h.s.env[id]] == E'[id] {
      if id in IterVars(op.iters) {
        var k :| 0 <= k < |op.iters| && IterVars(op.iters)[k] == id;
        BindAllAt(E[op.loopVar := i'], IterVars(op.iters), next, k);
        assert h.s.env[id] == h.iters[k];
      } else {
        BindAllOther(E[op.loopVar := i'], IterVars(op.iters), next, id);
        if id != op.loopVar {
          BindAllOther(E[op.loopVar := i], IterVars(op.iters), vals, id);
        }
      }
    }
  }

  lemma LoopLoaded(host: Host, R: seq<Val>, R2: seq<Val>, h: LoopHead, v: Val, lo: nat, hi: nat, fin: State)
    requires Loaded(host, R, fin) && SameBut(R, R2, h.iters, lo, hi, fin) && h.index < |R2| && h.index !in ConstSet(fin)
    requires forall k :: 0 <= k < |h.iters| ==> h.iters[k] !in ConstSet(fin)
    ensures Loaded(host, R2[h.index := v], fin)
  {
    forall k | 0 <= k < |fin.inits|
      ensures R2[h.index := v][fin.inits[k].reg] == Load(host, fin.consts[fin.inits[k].idx]) {
      assert fin.inits[k].reg in ConstSet(fin);
    }
  }

  /** One full iteration in front of the rest of the loop. */
  lemma {:induction false} LoopChain(P: Code, pc: int, R: seq<Val>, w: World, n1: nat, R1: seq<Val>, w1: World, n2: nat,
                                     len: nat, R2: seq<Val>, out: Outcome<seq<Val>>, dsts: seq<nat>, lo: nat, hi: nat,
                                     fin: State, fuel: nat)
    requires Steps(P, Running(pc, R, w), n1) == Running(pc, R1, w1) && n1 > 0 && fuel > 0
    requires SameBut(R, R1, dsts, lo, hi, fin)
    requires Yields(Stretch(P, pc, R1, w1, n2, len, R2), out, dsts, lo, hi, fin, fuel - 1)
    ensures Yields(Stretch(P, pc, R, w, n1 + n2, len, R2), out, dsts, lo, hi, fin, fuel)
  {
    StepsAdd(P, Running(pc, R, w), n1, n2);
  }

  /** Layout of one cycle of a loop. */
  ghost predicate CycleAt(P: Code, op: Op, h: LoopHead, pc: int)
    requires op.ForOp?
  {
    var t := EmitFresh(LtI64, [h.index, h.last], h.s);
    var body := GenBranch(op.body, h.iters, t.s);
    var c := EmitBuiltin(h.index, AddI64, [h.index, h.inc], body.s);
    At(P.instrs, pc, t.code + [IfInstr(t.reg, 1, |body.code| + 3)]) &&
    At(P.instrs, pc + 2, body.code) &&
    At(P.instrs, pc + 2 + |body.code|, c.code + [GotoInstr(-(|body.code| + 3))]) &&
    |GenLoopCycle(op, h).code| == |body.code| + 4
  }

  lemma {:induction false} CycleParts(P: Code, op: Op, h: LoopHead, pc: int, kinds: Kinds)
    requires op.ForOp? && Good(h.s, kinds) && BuiltinKinds(kinds) && At(P.instrs, pc, GenLoopCycle(op, h).code)
    ensures CycleAt(P, op, h, pc)
  {
    hide Good, At, GenBranch, BuiltinKinds;
    var t := EmitFresh(LtI64, [h.index, h.last], h.s);
    var body := GenBranch(op.body, h.iters, t.s);
    var c := EmitBuiltin(h.index, AddI64, [h.index, h.inc], body.s);
    EmitFreshOk(LtI64, [h.index, h.last], h.s, kinds);
    var head := t.code + [IfInstr(t.reg, 1, |body.code| + 3)];
    var tail := c.code + [GotoInstr(-(|body.code| + 3))];
    assert |c.code| == 1;
    assert GenLoopCycle(op, h).code == head + body.code + tail;
    AtParts(P.instrs, pc, head + body.code, tail);
    AtParts(P.instrs, pc, head, body.code);
  }

  /** The states of one cycle of a loop. */
  lemma {:induction false} CycleStates(op: Op, h: LoopHead, scope: set<nat>, taken: set<nat>, fin: State, kinds: Kinds)
    requires op.ForOp? && Good(h.s, kinds) && BuiltinKinds(kinds) && WfOp(op, scope, taken, kinds)
    requires Extends(GenLoopCycle(op, h).s, fin)
    ensures var t := EmitFresh(LtI64, [h.index, h.last], h.s); var body := GenBranch(op.body, h.iters, t.s);
      var c := EmitBuiltin(h.index, AddI64, [h.index, h.inc], body.s);
      Good(t.s, kinds) && Good(body.s, kinds) && Extends(t.s, fin) && Extends(body.s, fin) && t.s.env == h.s.env &&
      t.s.next == h.s.next + 1 <= body.s.next && c.s.funcs <= fin.funcs && GenLoopCycle(op, h).s == c.s &&
        c.s.next == body.s.next
  {
    hide Good, GenBranch, WfBlock, OkValue, CopySafe;
    var inner := Ids([op.loopVar] + IterVars(op.iters));
    var t := EmitFresh(LtI64, [h.index, h.last], h.s);
    var body := GenBranch(op.body, h.iters, t.s);
    var c := EmitBuiltin(h.index, AddI64, [h.index, h.inc], body.s);
    EmitFreshOk(LtI64, [h.index, h.last], h.s, kinds);
    GenBranchOk(op.body, |op.iters|, h.iters, t.s, scope + inner, taken + inner, kinds);
    EmitCallOk(h.index, Builtin, Core(AddI64), [h.index, h.inc], [], body.s, kinds);
    ExtendsTrans(body.s, c.s, fin);
    ExtendsTrans(t.s, body.s, fin);
  }

  lemma {:induction false} LoopRuns(P: Code, op: Op, h: LoopHead, taken: set<nat>, fin: State, E: Env, i: Val,
                                    vals: seq<Val>, last: Val, inc: Val, pc: int, R: seq<Val>, w: World, kinds: Kinds,
                                    fuel: nat)
    returns (n: nat, R': seq<Val>)
    requires op.ForOp? && |vals| == |op.iters| && HeadOk(op, h, fin, E)
    requires Ready(P, h.s, fin, LoopEnv(op, E, i, vals), R, kinds) && Bounds(h, last, inc, R)
    requires BuiltinKinds(kinds)
    requires WfOp(op, E.Keys, taken, kinds) && E.Keys <= taken
    requires var g := GenLoopCycle(op, h); Extends(g.s, fin) && CycleAt(P, op, h, pc)
    ensures var g := GenLoopCycle(op, h);
      Yields(Stretch(P, pc, R, w, n, |g.code|, R'), EvalLoop(P.M, op, Count(i, last, inc), vals, E, w, fuel), h.iters,
             h.index, g.s.next, fin, fuel)
    decreases op, fuel, 0
  {
    hide Good, Loaded, Agree, Same, SameBut, Steps, At, Extends, EmitFresh, GenBranch, EvalBlock, WfBlock, CopySafe,
         OkValue, BindAll, HeadOk, RegsHold, GenLoopCycle;
    var t := EmitFresh(LtI64, [h.index, h.last], h.s);
    var body := GenBranch(op.body, h.iters, t.s);
    var g := GenLoopCycle(op, h);
    LoopIds(op, E.Keys, taken, kinds);
    CycleStates(op, h, E.Keys, taken, fin, kinds);
    var n1, R1 := LoopTest(P, op, h, fin, E, i, vals, last, inc, |body.code| + 3, pc, R, w, kinds);
    n, R' := n1, R1;
    var test := CallBuiltin(P.M.host, LtI64, [i, last]);
    if test.Some? {
      if test.value.b {
        if fuel > 0 {
          n, R' := IterationRuns(P, op, h, taken, fin, E, i, vals, last, inc, pc, R, R1, w, kinds, fuel);
        }
      } else {
        LoopRegs(P, op, h, fin, E, i, vals, R1, kinds);
        SameToBut(R, R1, h.iters, h.s.next, t.s.next, h.index, g.s.next, fin);
        HeadBelow(op, h, fin, E);
      }
    }
  }

  lemma HeadBelow(op: Op, h: LoopHead, fin: State, E: Env)
    requires HeadOk(op, h, fin, E)
    ensures h.index < h.s.next && |h.iters| == |op.iters|
  {
  }

  lemma SameToBut(R: seq<Val>, R': seq<Val>, dsts: seq<nat>, lo: nat, hi: nat, lo': nat, hi': nat, fin: State)
    requires |R'| == |R| && Same(R, R', lo, hi, fin)
    ensures lo' <= lo && hi <= hi' ==> SameBut(R, R', dsts, lo', hi', fin)
  {
  }

  /** A loop whose test succeeds, one iteration unfolded. */
  lemma LoopUnfold(M: Machine, op: Op, i: Val, vals: seq<Val>, last: Val, inc: Val, E: Env, w: World, fuel: nat)
    requires op.ForOp? && |vals| == |op.iters| && fuel > 0 && CallBuiltin(M.host, LtI64, [i, last]) == Some(VBool(true))
    ensures EvalLoop(M, op, Count(i, last, inc), vals, E, w, fuel) ==
      match EvalBlock(M, op.body, LoopEnv(op, E, i, vals), w, fuel - 1)
      case Ok(next, w') =>
        (match CallBuiltin(M.host, AddI64, [i, inc])
         case Some(i') => EvalLoop(M, op, Count(i', last, inc), next, E, w', fuel - 1)
         case None => Raised(w'))
      case Raised(w') => Raised(w')
      case OutOfFuel => OutOfFuel
  {
  }

  /** The body, the copies, the increment, the jump back, and the rest of the loop. */
  lemma {:induction false} IterationRuns(P: Code, op: Op, h: LoopHead, taken: set<nat>, fin: State, E: Env, i: Val,
                                         vals: seq<Val>, last: Val, inc: Val, pc: int, R: seq<Val>, R1: seq<Val>,
                                         w: World, kinds: Kinds, fuel: nat)
    returns (n: nat, R': seq<Val>)
    requires op.ForOp? && |vals| == |op.iters| && HeadOk(op, h, fin, E)
    requires Ready(P, h.s, fin, LoopEnv(op, E, i, vals), R1, kinds) && Bounds(h, last, inc, R1)
    requires BuiltinKinds(kinds)
    requires WfOp(op, E.Keys, taken, kinds) && E.Keys <= taken && fuel > 0
    requires var g := GenLoopCycle(op, h); Extends(g.s, fin) && CycleAt(P, op, h, pc)
    requires var t := EmitFresh(LtI64, [h.index, h.last], h.s);
      |R1| == |R| && Same(R, R1, h.s.next, t.s.next, fin) && Ready(P, t.s, fin, LoopEnv(op, E, i, vals), R1, kinds)
    requires Steps(P, Running(pc, R, w), 2) == Running(pc + 2, R1, w)
    requires CallBuiltin(P.M.host, LtI64, [i, last]) == Some(VBool(true))
    ensures var g := GenLoopCycle(op, h);
      Yields(Stretch(P, pc, R, w, n, |g.code|, R'), EvalLoop(P.M, op, Count(i, last, inc), vals, E, w, fuel), h.iters,
             h.index, g.s.next, fin, fuel)
    decreases op, fuel - 1, 3
  {
    hide Good, Loaded, Agree, Same, SameBut, Steps, At, Extends, EmitFresh, GenBranch, EvalBlock, WfBlock, CopySafe,
         OkValue, BindAll, HeadOk, GenLoopCycle, Targets, SafeTargets, EvalLoop, CallBuiltin, EmitBuiltin, WfOp,
         AsInt, Arithmetic, Ids, IterVars, Bounds;
    var t := EmitFresh(LtI64, [h.index, h.last], h.s);
    var body := GenBranch(op.body, h.iters, t.s);
    var g := GenLoopCycle(op, h);
    var inner := Ids([op.loopVar] + IterVars(op.iters));
    var E1 := LoopEnv(op, E, i, vals);
    LoopIds(op, E.Keys, taken, kinds);
    CycleStates(op, h, E.Keys, taken, fin, kinds);
    HeadBelow(op, h, fin, E);
    LoopBodyReady(P, op, h, t.s, taken, fin, E, i, vals, R1, kinds);
    LoopUnfold(P.M, op, i, vals, last, inc, E, w, fuel);
    var n2, R2 := BranchRuns(P, op.body, h.iters, t.s, taken + inner, fin, E1, pc + 2, R1, w, kinds, fuel - 1);
    StepsAdd(P, Running(pc, R, w), 2, n2);
    var out := EvalBlock(P.M, op.body, E1, w, fuel - 1);
    n, R' := 2 + n2, R2;
    if out.Ok? {
      var n3, R3 := CycleEnds(P, op, h, taken, fin, E, i, vals, last, inc, pc, R, R1, R2, w, n2, out.value, out.w,
                              kinds);
      n, R' := n3, R3;
      var next := CallBuiltin(P.M.host, AddI64, [i, inc]);
      if next.Some? {
        var n4, R4 := LoopRuns(P, op, h, taken, fin, E, next.value, out.value, last, inc, pc, R3, out.w, kinds,
                               fuel - 1);
        LoopChain(P, pc, R, w, n3, R3, out.w, n4, |g.code|, R4,
                  EvalLoop(P.M, op, Count(next.value, last, inc), out.value, E, out.w, fuel - 1), h.iters, h.index,
                    g.s.next,
                    fin, fuel);
        n, R' := n3 + n4, R4;
      }
    }
  }

  /** The body starts with the index and the carried variables in scope. */
  lemma {:induction false} LoopBodyReady(P: Code, op: Op, h: LoopHead, t: State, taken: set<nat>, fin: State, E: Env,
                                         i: Val, vals: seq<Val>, R: seq<Val>, kinds: Kinds)
    requires op.ForOp? && |vals| == |op.iters| && HeadOk(op, h, fin, E) && BuiltinKinds(kinds)
    requires Ready(P, t, fin, LoopEnv(op, E, i, vals), R, kinds) && t.env == h.s.env && h.s.next <= t.next
    requires Extends(t, fin)
    requires WfOp(op, E.Keys, taken, kinds) && E.Keys <= taken
    ensures var inner := Ids([op.loopVar] + IterVars(op.iters));
      LoopEnv(op, E, i, vals).Keys == E.Keys + inner && Targets(h.iters, R, fin) &&
      WfBlock(op.body, |h.iters|, LoopEnv(op, E, i, vals).Keys, taken + inner, kinds) &&
      SafeTargets(op.body.yielded, h.iters, GenOps(op.body.ops, t).s)
  {
    hide Good, Extends, Agree, Loaded, WfBlock, EvalBlock;
    var inner := Ids([op.loopVar] + IterVars(op.iters));
    BindAllKeys(E[op.loopVar := i], IterVars(op.iters), vals);
    IdsCons(op.loopVar, IterVars(op.iters));
    assert LoopEnv(op, E, i, vals).Keys == E.Keys + inner;
    LoopSafe(op, h, t, E.Keys + inner, taken, fin, E, kinds);
    RoomFor(P.M.host, t, fin, R);
  }

  /** From the end of the body back to the header. */
  lemma CycleEnds(P: Code, op: Op, h: LoopHead, taken: set<nat>, fin: State, E: Env, i: Val, vals: seq<Val>, last: Val,
                  inc: Val, pc: int, R: seq<Val>, R1: seq<Val>, R2: seq<Val>, w: World, n2: nat, next: seq<Val>,
                  w2: World, kinds: Kinds)
    returns (n: nat, R': seq<Val>)
    requires op.ForOp? && |vals| == |op.iters| && HeadOk(op, h, fin, E)
    requires Ready(P, h.s, fin, LoopEnv(op, E, i, vals), R1, kinds) && Bounds(h, last, inc, R1)
    requires BuiltinKinds(kinds)
    requires WfOp(op, E.Keys, taken, kinds) && E.Keys <= taken
    requires Extends(GenLoopCycle(op, h).s, fin) && CycleAt(P, op, h, pc)
    requires var t := EmitFresh(LtI64, [h.index, h.last], h.s); var body := GenBranch(op.body, h.iters, t.s);
      |R1| == |R| && Same(R, R1, h.s.next, t.s.next, fin) &&
      Steps(P, Running(pc, R, w), 2 + n2) == Running(pc + 2 + |body.code|, R2, w2) &&
      RegsHold(h.iters, next, R2) && SameBut(R1, R2, h.iters, t.s.next, body.s.next, fin)
    ensures |next| == |op.iters|
    ensures match CallBuiltin(P.M.host, AddI64, [i, inc])
      case None => Steps(P, Running(pc, R, w), n) == Failed(w2)
      case Some(i') =>
        n > 0 && Steps(P, Running(pc, R, w), n) == Running(pc, R', w2) &&
        HeadOk(op, h, fin, E) && Ready(P, h.s, fin, LoopEnv(op, E, i', next), R', kinds) && Bounds(h, last, inc, R') &&
        SameBut(R, R', h.iters, h.index, GenLoopCycle(op, h).s.next, fin)
  {
    hide Good, Loaded, Agree, Same, SameBut, Steps, At, EmitFresh, GenBranch, WfBlock, CopySafe, OkValue, BindAll,
         HeadOk, GenLoopCycle;
    var t := EmitFresh(LtI64, [h.index, h.last], h.s);
    var body := GenBranch(op.body, h.iters, t.s);
    LoopIds(op, E.Keys, taken, kinds);
    CycleStates(op, h, E.Keys, taken, fin, kinds);
    HeadBelow(op, h, fin, E);
    var back := -(|body.code| + 3);
    var i' := if CallBuiltin(P.M.host, AddI64, [i, inc]).Some? then CallBuiltin(P.M.host, AddI64, [i, inc]).value
      else VNull;
    LoopNext(P, op, h, t.s, body.s, fin, E, i, vals, last, inc, R1, R2, next, i', kinds);
    LoopBack(P, h, body.s, i, inc, back, pc + 2 + |body.code|, R2, w2, kinds);
    R' := R2[h.index := i'];
    if CallBuiltin(P.M.host, AddI64, [i, inc]).Some? {
      n := 2 + n2 + 2;
      StepsAdd(P, Running(pc, R, w), 2 + n2, 2);
      SameToBut(R, R1, h.iters, h.s.next, t.s.next, h.index, body.s.next, fin);
      SameButTrans(R, R1, R', h.iters, h.index, body.s.next, fin);
    } else {
      n := 2 + n2 + 1;
      StepsAdd(P, Running(pc, R, w), 2 + n2, 1);
    }
  }

  lemma SameButTrans(R: seq<Val>, R1: seq<Val>, R2: seq<Val>, dsts: seq<nat>, lo: nat, hi: nat, fin: State)
    requires SameBut(R, R1, dsts, lo, hi, fin) && SameBut(R1, R2, dsts, lo, hi, fin)
    ensures SameBut(R, R2, dsts, lo, hi, fin)
  {
  }

  // ---------------------------------------------------------------- after the loop

  /** Each result is a copy of its carried variable, in a register of its own. */
  lemma {:induction false} LoopResultsRun(P: Code, results: seq<nat>, regs: seq<nat>, xs: seq<Val>, s: State,
                                          fin: State, E: Env, pc: int, R: seq<Val>, w: World, kinds: Kinds)
    returns (n: nat, R': seq<Val>)
    requires Ready(P, s, fin, E, R, kinds) && BuiltinKinds(kinds) && |results| == |regs| == |xs|
    requires RegsHold(regs, xs, R) && forall k :: 0 <= k < |regs| ==> regs[k] < s.next
    requires var g := GenLoopResults(results, regs, s); Extends(g.s, fin) && At(P.instrs, pc, g.code)
    ensures var g := GenLoopResults(results, regs, s);
      Steps(P, Running(pc, R, w), n) == Running(pc + |g.code|, R', w) && |R'| == |R| &&
      Agree(g.s, BindAll(E, results, xs), R') && Same(R, R', s.next, g.s.next, fin)
    decreases |results|
  {
    n, R' := 0, R;
    if results == [] {
    } else {
      n, R' := LoopResultsConsRun(P, results, regs, xs, s, fin, E, pc, R, w, kinds);
    }
  }

  lemma {:induction false} LoopResultsConsRun(P: Code, results: seq<nat>, regs: seq<nat>, xs: seq<Val>, s: State,
                                              fin: State, E: Env, pc: int, R: seq<Val>, w: World, kinds: Kinds)
    returns (n: nat, R': seq<Val>)
    requires Ready(P, s, fin, E, R, kinds) && BuiltinKinds(kinds) && |results| == |regs| == |xs| > 0
    requires RegsHold(regs, xs, R) && forall k :: 0 <= k < |regs| ==> regs[k] < s.next
    requires var g := GenLoopResults(results, regs, s); Extends(g.s, fin) && At(P.instrs, pc, g.code)
    ensures var g := GenLoopResults(results, regs, s);
      Steps(P, Running(pc, R, w), n) == Running(pc + |g.code|, R', w) && |R'| == |R| &&
      Agree(g.s, BindAll(E, results, xs), R') && Same(R, R', s.next, g.s.next, fin)
    decreases |results|, 0
  {
    hide Good, Extends, Loaded, Agree, Same, Steps, At, EmitDefine, Launched, Bound, GenLoopResults, EmitResult;
    ResultsParts(results, regs, s);
    var c := EmitDefine(results[0], Identity, [regs[0]], s);
    var rest := GenLoopResults(results[1..], regs[1..], c.s);
    assert c == EmitResult(Some(results[0]), Builtin, Core(Identity), [regs[0]], [], s)
      by { DefineIs(results[0], Identity, [regs[0]], s); }
    EmitResultOk(Some(results[0]), Builtin, Core(Identity), [regs[0]], [], s, kinds);
    GenLoopResultsOk(results[1..], regs[1..], c.s, kinds);
    ExtendsTrans(c.s, rest.s, fin);
    AtParts(P.instrs, pc, c.code, rest.code);
    assert RegsHold([regs[0]], [xs[0]], R);
    var R1 := DefineRuns(P, results[0], Builtin, Core(Identity), [regs[0]], [], [xs[0]], [], s, fin, E, pc, R, w, kinds,
                         0);
    IdentityDefines(P.M, results[0], xs[0], E, w);
    ReadyOps(P, s, c.s, fin, E, E[results[0] := xs[0]], R, R1, {results[0]}, kinds);
    HoldsSame(regs, xs, R, R1, s.next, c.s.next, fin);
    var n2, R2 := LoopResultsRun(P, results[1..], regs[1..], xs[1..], c.s, fin, E[results[0] := xs[0]], pc + 1, R1, w,
                                 kinds);
    n, R' := 1 + n2, R2;
    StepsAdd(P, Running(pc, R, w), 1, n2);
    SameTrans(R, R1, R2, s.next, c.s.next, c.s.next, rest.s.next, fin);
  }

  lemma {:induction false} ResultsParts(results: seq<nat>, regs: seq<nat>, s: State)
    requires results != [] && regs != []
    ensures var c := EmitDefine(results[0], Identity, [regs[0]], s);
      var rest := GenLoopResults(results[1..], regs[1..], c.s);
      GenLoopResults(results, regs, s) == Gen(c.code + rest.code, rest.s)
  {
  }

  lemma IdentityDefines(M: Machine, id: nat, x: Val, E: Env, w: World)
    ensures Bound(Some(id), E, Launched(M, Builtin, Core(Identity), [x], [], w)) == Ok(E[id := x], w)
  {
  }

  /** Outside the loop only what was visible before it counts. */
  lemma {:induction false} LoopLeaves(P: Code, op: Op, h: LoopHead, s: State, cycle: State, taken: set<nat>, fin: State,
                                      E: Env, i: Val, vals: seq<Val>, R0: seq<Val>, R: seq<Val>, R': seq<Val>,
                                      out: seq<Val>, kinds: Kinds)
    requires op.ForOp? && |vals| == |op.iters| == |out| && Ready(P, s, fin, E, R0, kinds)
    requires HeadOk(op, h, fin, E) && Ready(P, h.s, fin, LoopEnv(op, E, i, vals), R, kinds)
    requires Same(R0, R, s.next, h.s.next, fin) && |R| == |R0|
    requires WfOp(op, E.Keys, taken, kinds) && E.Keys <= taken
    requires Advances(h.s, cycle, BindsOps(op.body.ops), kinds) && BindsOps(op.body.ops) !! taken && s.next <= h.index
    requires SameBut(R, R', h.iters, h.index, cycle.next, fin) && RegsHold(h.iters, out, R')
    ensures Ready(P, cycle, fin, E, R', kinds) && Same(R0, R', s.next, cycle.next, fin) && |R'| == |R0|
    ensures forall k :: 0 <= k < |h.iters| ==> h.iters[k] < cycle.next
  {
    LoopIds(op, E.Keys, taken, kinds);
    assert forall r :: r <= h.index || r >= h.s.next ==> r !in h.iters;
    assert forall k :: 0 <= k < |h.iters| ==> h.iters[k] !in ConstSet(fin);
    forall k | 0 <= k < |fin.inits| ensures R'[fin.inits[k].reg] == Load(P.M.host, fin.consts[fin.inits[k].idx]) {
      assert fin.inits[k].reg in ConstSet(fin);
    }
    forall id | id in E ensures id in cycle.env && cycle.env[id] < |R'| && R'[cycle.env[id]] == E[id] {
      assert id in taken;
      BindAllOther(E[op.loopVar := i], IterVars(op.iters), vals, id);
    }
  }

  // ---------------------------------------------------------------- the theorem for ops

  lemma {:induction false} ForRuns(P: Code, op: Op, s: State, taken: set<nat>, fin: State, E: Env, pc: int, R: seq<Val>,
                                   w: World, kinds: Kinds, fuel: nat)
    returns (n: nat, R': seq<Val>)
    requires op.ForOp? && Ready(P, s, fin, E, R, kinds) && BuiltinKinds(kinds) && WfOp(op, E.Keys, taken, kinds)
    requires E.Keys <= taken
    requires var g := GenFor(op, s); Extends(g.s, fin) && At(P.instrs, pc, g.code)
    ensures var g := GenFor(op, s);
      Executes(Stretch(P, pc, R, w, n, |g.code|, R'), EvalOp(P.M, op, E, w, fuel), s, g.s, fin, fuel)
    decreases op, fuel, 1
  {
    hide Good, Loaded, Agree, Same, SameBut, Steps, At, WfBlock, CopySafe, OkValue, BindAll, HeadOk, GenLoopCycle,
         GenLoopEntry, GenLoopResults, EvalLoop, EvalBound, CycleAt, RegsHold, Binds, BindsOps;
    var h := GenLoopEntry(op, s);
    var cycle := GenLoopCycle(op, h);
    var tail := GenLoopResults(op.results, h.iters, cycle.s);
    var g := GenFor(op, s);
    ForStates(op, s, E.Keys, taken, fin, kinds);
    AtParts(P.instrs, pc, h.code + cycle.code, tail.code);
    AtParts(P.instrs, pc, h.code, cycle.code);
    var n1, R1 := EntryRuns(P, op, s, taken, fin, E, pc, R, w, kinds);
    var first, last, inc := EvalBound(P.M.host, op.start, E).value, EvalBound(P.M.host, op.end, E).value,
      EvalBound(P.M.host, op.step, E).value;
    var inits := EvalValues(P.M.host, IterInits(op.iters), E).value;
    CycleParts(P, op, h, pc + |h.code|, kinds);
    var n2, R2 := LoopRuns(P, op, h, taken, fin, E, first, inits, last, inc, pc + |h.code|, R1, w, kinds, fuel);
    StepsAdd(P, Running(pc, R, w), n1, n2);
    n, R' := n1 + n2, R2;
    var out := EvalLoop(P.M, op, Count(first, last, inc), inits, E, w, fuel);
    if out.Ok? {
      EvalLoopCount(P.M, op, first, inits, last, inc, E, w, fuel);
      HeadBelow(op, h, fin, E);
      LoopLeaves(P, op, h, s, cycle.s, taken, fin, E, first, inits, R, R1, R2, out.value, kinds);
      var n3, R3 := ForTail(P, op, h, s, cycle.s, taken, fin, E, pc + |h.code| + |cycle.code|, R2, out.value, out.w,
                            kinds);
      StepsAdd(P, Running(pc, R, w), n1 + n2, n3);
      SameTrans(R, R2, R3, s.next, cycle.s.next, cycle.s.next, g.s.next, fin);
      n, R' := n1 + n2 + n3, R3;
    }
  }

  lemma {:induction false} EvalLoopCount(M: Machine, op: Op, i: Val, vals: seq<Val>, last: Val, inc: Val, E: Env,
                                         w: World, fuel: nat)
    requires op.ForOp?
    ensures var out := EvalLoop(M, op, Count(i, last, inc), vals, E, w, fuel); out.Ok? ==> |out.value| == |op.iters|
    decreases fuel
  {
    if |vals| == |op.iters| && fuel > 0 {
      var r := EvalBlock(M, op.body, BindAll(E[op.loopVar := i], IterVars(op.iters), vals), w, fuel - 1);
      var next := CallBuiltin(M.host, AddI64, [i, inc]);
      if r.Ok? && next.Some? { EvalLoopCount(M, op, next.value, r.value, last, inc, E, r.w, fuel - 1); }
    }
  }

  /** The states a loop's code passes through. */
  lemma {:induction false} ForStates(op: Op, s: State, scope: set<nat>, taken: set<nat>, fin: State, kinds: Kinds)
    requires op.ForOp? && Good(s, kinds) && BuiltinKinds(kinds) && WfOp(op, scope, taken, kinds) && scope <= taken
    requires Extends(GenFor(op, s).s, fin)
    ensures var h := GenLoopEntry(op, s); var cycle := GenLoopCycle(op, h);
      Good(h.s, kinds) && Good(cycle.s, kinds) && Extends(h.s, fin) && Extends(cycle.s, fin) &&
      Advances(h.s, cycle.s, BindsOps(op.body.ops), kinds) && BindsOps(op.body.ops) !! taken &&
      s.next <= h.index && h.s.next <= cycle.s.next <= GenFor(op, s).s.next && |h.iters| == |op.iters|
  {
    hide Good, Extends, GenLoopCycle, CopySafe, OkValue, BoundReg, EmitCall, GenIters, GenLoopResults, BindsOps, Binds;
    var inner := Ids([op.loopVar] + IterVars(op.iters));
    var h := GenLoopEntry(op, s);
    var cycle := GenLoopCycle(op, h);
    LoopIds(op, scope, taken, kinds);
    OkPlain(op.start, scope, kinds);
    OkPlain(op.end, scope, kinds);
    OkPlain(op.step, scope, kinds);
    GenLoopEntryOk(op, s, kinds);
    GenLoopCycleOk(op, h, scope, taken, kinds);
    GenLoopResultsOk(op.results, h.iters, cycle.s, kinds);
    ExtendsTrans(cycle.s, GenFor(op, s).s, fin);
    ExtendsTrans(h.s, cycle.s, fin);
    BindsOpsFresh(op.body.ops, scope + inner, taken + inner, kinds);
    IndexAbove(op, s, kinds);
  }

  lemma IndexAbove(op: Op, s: State, kinds: Kinds)
    requires op.ForOp? && Good(s, kinds) && PlainValue(op.start, kinds) && PlainValue(op.end, kinds)
    requires PlainValue(op.step, kinds)
    ensures s.next <= GenLoopEntry(op, s).index
  {
    BoundRegOk(op.start, s, kinds);
    var s1 := BoundReg(op.start, s).1;
    BoundRegOk(op.end, s1, kinds);
    BoundRegOk(op.step, BoundReg(op.end, s1).1, kinds);
  }

  /** The results, if the loop has any. */
  lemma ForTail(P: Code, op: Op, h: LoopHead, s: State, cycle: State, taken: set<nat>, fin: State, E: Env, pc: int,
                R: seq<Val>, out: seq<Val>, w: World, kinds: Kinds)
    returns (n: nat, R': seq<Val>)
    requires op.ForOp? && WfOp(op, E.Keys, taken, kinds) && Ready(P, cycle, fin, E, R, kinds) && BuiltinKinds(kinds)
    requires |h.iters| == |op.iters| == |out| && RegsHold(h.iters, out, R)
    requires forall k :: 0 <= k < |h.iters| ==> h.iters[k] < cycle.next
    requires var g := GenLoopResults(op.results, h.iters, cycle); Extends(g.s, fin) && At(P.instrs, pc, g.code)
    ensures var g := GenLoopResults(op.results, h.iters, cycle);
      Steps(P, Running(pc, R, w), n) == Running(pc + |g.code|, R', w) && |R'| == |R| &&
      Agree(g.s, if op.results == [] then E else BindAll(E, op.results, out), R') &&
      Same(R, R', cycle.next, g.s.next, fin) &&
      (op.results == [] || |op.results| == |out|)
  {
    hide Good, Extends, Loaded, Agree, Same, At, WfBlock, CopySafe, OkValue;
    if op.results == [] {
      n, R' := 0, R;
      SameRefl(R, cycle.next, cycle.next, fin);
    } else {
      n, R' := LoopResultsRun(P, op.results, h.iters, out, cycle, fin, E, pc, R, w, kinds);
    }
  }

  lemma {:induction false} OpRuns(P: Code, op: Op, s: State, taken: set<nat>, fin: State, E: Env, pc: int, R: seq<Val>,
                                  w: World, kinds: Kinds, fuel: nat)
    returns (n: nat, R': seq<Val>)
    requires Ready(P, s, fin, E, R, kinds) && BuiltinKinds(kinds) && WfOp(op, E.Keys, taken, kinds) && E.Keys <= taken
    requires var g := GenOp(op, s); Extends(g.s, fin) && At(P.instrs, pc, g.code)
    ensures var g := GenOp(op, s);
      Executes(Stretch(P, pc, R, w, n, |g.code|, R'), EvalOp(P.M, op, E, w, fuel), s, g.s, fin, fuel)
    decreases op, fuel, 2
  {
    hide Ready, WfOp, GenIf, GenFor, GenSimple, Executes, Extends, At, EvalSimple;
    match op
    case IfOp(_, _, _, _) => n, R' := IfRuns(P, op, s, taken, fin, E, pc, R, w, kinds, fuel);
    case ForOp(_, _, _, _, _, _, _, _) => n, R' := ForRuns(P, op, s, taken, fin, E, pc, R, w, kinds, fuel);
    case _ =>
      SimpleCase(P.M, op, E, w, fuel);
      n, R' := SimpleRuns(P, op, s, taken, fin, E, pc, R, w, kinds, fuel);
  }

  lemma {:induction false} SimpleCase(M: Machine, op: Op, E: Env, w: World, fuel: nat)
    requires !op.IfOp? && !op.ForOp?
    ensures EvalOp(M, op, E, w, fuel) == EvalSimple(M, op, E, w)
  {
  }

  /** The code of a sequence of ops has the outcome of evaluating them. */
  lemma {:induction false} OpsRun(P: Code, ops: seq<Op>, s: State, taken: set<nat>, fin: State, E: Env, pc: int,
                                  R: seq<Val>, w: World, kinds: Kinds, fuel: nat)
    returns (n: nat, R': seq<Val>)
    requires Ready(P, s, fin, E, R, kinds) && BuiltinKinds(kinds) && WfOps(ops, E.Keys, taken, kinds) && E.Keys <= taken
    requires var g := GenOps(ops, s); Extends(g.s, fin) && At(P.instrs, pc, g.code)
    ensures var g := GenOps(ops, s);
      Executes(Stretch(P, pc, R, w, n, |g.code|, R'), EvalOps(P.M, ops, E, w, fuel), s, g.s, fin, fuel)
    decreases ops, fuel, 0
  {
    hide Good, Loaded, Agree, Same, Steps, At, Extends, WfOp, GenOp, EvalOp, Binds, Defines;
    n, R' := 0, R;
    if ops == [] {
      StepsZero(P, Running(pc, R, w));
      SameRefl(R, s.next, s.next, fin);
    } else {
      var g := GenOp(ops[0], s);
      var gs := GenOps(ops[1..], g.s);
      GenOpOk(ops[0], s, E.Keys, taken, kinds);
      GenOpsOk(ops[1..], g.s, E.Keys + Defines(ops[0]), taken + Defines(ops[0]), kinds);
      ExtendsTrans(g.s, gs.s, fin);
      AtParts(P.instrs, pc, g.code, gs.code);
      var n1, R1 := OpRuns(P, ops[0], s, taken, fin, E, pc, R, w, kinds, fuel);
      n, R' := n1, R1;
      var r := EvalOp(P.M, ops[0], E, w, fuel);
      if r.Ok? {
        OpKeys(P.M, ops[0], E, taken, w, fuel, kinds);
        ReadyOps(P, s, g.s, fin, E, r.value, R, R1, Binds(ops[0]), kinds);
        var n2, R2 := OpsRun(P, ops[1..], g.s, taken + Defines(ops[0]), fin, r.value, pc + |g.code|, R1, r.w, kinds,
                             fuel);
        n, R' := n1 + n2, R2;
        ExecutesThen(P, pc, R, w, n1, |g.code|, R1, r.w, n2, |gs.code|, R2, EvalOps(P.M, ops[1..], r.value, r.w, fuel),
                     s, g.s, gs.s, fin, fuel);
      }
    }
  }

  lemma {:induction false} OpKeys(M: Machine, op: Op, E: Env, taken: set<nat>, w: World, fuel: nat, kinds: Kinds)
    requires EvalOp(M, op, E, w, fuel).Ok? && WfOp(op, E.Keys, taken, kinds)
    ensures EvalOp(M, op, E, w, fuel).value.Keys == E.Keys + Defines(op)
  {
    EvalOpKeys(M, op, E, w, fuel);
  }
}

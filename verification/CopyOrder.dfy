/** Yielded values are copied one after another (python/devproc2/compiler/passes/vm_codegen.py).
    When is that the same as copying them all at once? */
module CopyOrder {
  import opened Bytecode
  import opened Runtime
  import opened Builtins
  import opened IRValues
  import opened MemoryIR
  import opened CodegenSpec
  import opened CodegenState
  import opened WellFormed
  import opened FrameMachine
  import opened StraightLineCorrect

  /** Copy register srcs[k] to dsts[k] for k = 0, 1, ..., in this order. */
  function SeqCopy(R: seq<Val>, dsts: seq<nat>, srcs: seq<nat>): (R': seq<Val>)
    requires |dsts| == |srcs| && forall k :: 0 <= k < |dsts| ==> dsts[k] < |R| && srcs[k] < |R|
    ensures |R'| == |R|
    decreases |dsts|
  {
    if dsts == [] then R else SeqCopy(R[dsts[0] := R[srcs[0]]], dsts[1..], srcs[1..])
  }

  predicate CopyRegs(dsts: seq<nat>, srcs: seq<nat>, size: nat) {
    |dsts| == |srcs| && Distinct(dsts) && forall k :: 0 <= k < |dsts| ==> dsts[k] < size && srcs[k] < size
  }

  /** Every destination holds what its source held before any copy. */
  predicate Delivered(R: seq<Val>, R': seq<Val>, dsts: seq<nat>, srcs: seq<nat>)
    requires |R| == |R'| && CopyRegs(dsts, srcs, |R|)
  {
    forall k :: 0 <= k < |dsts| ==> R'[dsts[k]] == R[srcs[k]]
  }

  /** A source that was a destination before had not changed there. */
  predicate NoHazard(dsts: seq<nat>, srcs: seq<nat>)
    requires |dsts| == |srcs|
  {
    forall i, j :: 0 <= i < j < |srcs| && srcs[j] == dsts[i] ==> srcs[i] == dsts[i]
  }

  lemma {:induction false} SeqCopyOther(R: seq<Val>, dsts: seq<nat>, srcs: seq<nat>, r: nat)
    requires CopyRegs(dsts, srcs, |R|) && r < |R| && r !in dsts
    ensures SeqCopy(R, dsts, srcs)[r] == R[r]
    decreases |dsts|
  {
    if dsts != [] { SeqCopyOther(R[dsts[0] := R[srcs[0]]], dsts[1..], srcs[1..], r); }
  }

  lemma {:induction false} SeqCopySnoc(R: seq<Val>, dsts: seq<nat>, srcs: seq<nat>, n: nat)
    requires CopyRegs(dsts, srcs, |R|) && n < |dsts|
    ensures var before := SeqCopy(R, dsts[..n], srcs[..n]);
      SeqCopy(R, dsts[..n + 1], srcs[..n + 1]) == before[dsts[n] := before[srcs[n]]]
    decreases n
  {
    if n == 0 {
      assert dsts[..1] == [dsts[0]] && srcs[..1] == [srcs[0]];
    } else {
      var R1 := R[dsts[0] := R[srcs[0]]];
      assert dsts[..n + 1][1..] == dsts[1..][..n] && srcs[..n + 1][1..] == srcs[1..][..n];
      assert dsts[..n][1..] == dsts[1..][..n - 1] && srcs[..n][1..] == srcs[1..][..n - 1];
      SeqCopySnoc(R1, dsts[1..], srcs[1..], n - 1);
    }
  }

  /** The first n copies, if nothing goes wrong among them. */
  lemma {:induction false} SafeCopies(R: seq<Val>, dsts: seq<nat>, srcs: seq<nat>, n: nat)
    requires CopyRegs(dsts, srcs, |R|) && n <= |dsts| && NoHazard(dsts[..n], srcs[..n])
    ensures var R' := SeqCopy(R, dsts[..n], srcs[..n]); forall k :: 0 <= k < n ==> R'[dsts[k]] == R[srcs[k]]
    decreases n
  {
    hide SeqCopy;
    if n > 0 {
      var d, s := dsts[..n - 1], srcs[..n - 1];
      assert NoHazard(d, s) by {
        forall i, j | 0 <= i < j < |s| && s[j] == d[i] ensures s[i] == d[i] {
          assert srcs[..n][j] == dsts[..n][i];
        }
      }
      SafeCopies(R, dsts, srcs, n - 1);
      SeqCopySnoc(R, dsts, srcs, n - 1);
      var before := SeqCopy(R, d, s);
      if srcs[n - 1] in d {
        var i :| 0 <= i < n - 1 && dsts[i] == srcs[n - 1];
        assert srcs[..n][n - 1] == dsts[..n][i];
        assert srcs[..n][i] == dsts[..n][i];
      } else {
        SeqCopyOther(R, d, s, srcs[n - 1]);
      }
    }
  }

  /** A register file that tells one register from all others. */
  function Marked(size: nat, r: nat): seq<Val> {
    seq(size, k => VBool(k == r))
  }

  /** A hazard that is not among the first n - 1 copies sits at the n-th. */
  lemma HazardAtLast(dsts: seq<nat>, srcs: seq<nat>, n: nat) returns (i: nat)
    requires |dsts| == |srcs| && 0 < n <= |dsts| && NoHazard(dsts[..n - 1], srcs[..n - 1])
    requires !NoHazard(dsts[..n], srcs[..n])
    ensures i < n - 1 && srcs[n - 1] == dsts[i] && srcs[i] != dsts[i]
  {
    var k, j :| 0 <= k < j < n && srcs[..n][j] == dsts[..n][k] && srcs[..n][k] != dsts[..n][k];
    i := k;
    if j < n - 1 { PrefixHazard(dsts, srcs, n - 1, k, j); }
  }

  lemma PrefixHazard(dsts: seq<nat>, srcs: seq<nat>, n: nat, i: nat, j: nat)
    requires |dsts| == |srcs| && i < j < n <= |dsts| && srcs[j] == dsts[i] && srcs[i] != dsts[i]
    ensures !NoHazard(dsts[..n], srcs[..n])
  {
    assert srcs[..n][j] == dsts[..n][i] && srcs[..n][i] != dsts[..n][i];
  }

  /** A hazard shows on some register file. */
  lemma {:induction false} HazardShows(dsts: seq<nat>, srcs: seq<nat>, size: nat, n: nat) returns (R: seq<Val>)
    requires CopyRegs(dsts, srcs, size) && n <= |dsts| && !NoHazard(dsts[..n], srcs[..n])
    ensures |R| == size && !Delivered(R, SeqCopy(R, dsts, srcs), dsts, srcs)
    decreases n
  {
    if !NoHazard(dsts[..n - 1], srcs[..n - 1]) {
      R := HazardShows(dsts, srcs, size, n - 1);
    } else {
      var i := HazardAtLast(dsts, srcs, n);
      R := Marked(size, srcs[i]);
      SafeCopies(R, dsts, srcs, n - 1);
      SeqCopySnoc(R, dsts, srcs, n - 1);
      RestKeeps(R, dsts, srcs, n, dsts[n - 1]);
      assert SeqCopy(R, dsts, srcs)[dsts[n - 1]] == R[srcs[i]] != R[srcs[n - 1]];
    }
  }

  /** Copies after the n-th leave an earlier destination alone. */
  lemma {:induction false} RestKeeps(R: seq<Val>, dsts: seq<nat>, srcs: seq<nat>, n: nat, r: nat)
    requires CopyRegs(dsts, srcs, |R|) && n <= |dsts| && r < |R| && r !in dsts[n..]
    ensures SeqCopy(R, dsts, srcs)[r] == SeqCopy(R, dsts[..n], srcs[..n])[r]
    decreases |dsts| - n
  {
    if n == |dsts| {
      assert dsts[..n] == dsts && srcs[..n] == srcs;
    } else {
      SeqCopySnoc(R, dsts, srcs, n);
      assert dsts[n..] == [dsts[n]] + dsts[n + 1..];
      RestKeeps(R, dsts, srcs, n + 1, r);
    }
  }

  /** Copying in sequence is copying at once, on every register file, exactly when there is no hazard. */
  lemma {:induction false} SequentialIsParallel(dsts: seq<nat>, srcs: seq<nat>, size: nat)
    requires CopyRegs(dsts, srcs, size)
    ensures NoHazard(dsts, srcs) <==>
      forall R: seq<Val> :: |R| == size ==> Delivered(R, SeqCopy(R, dsts, srcs), dsts, srcs)
  {
    if NoHazard(dsts, srcs) {
      assert dsts[..|dsts|] == dsts && srcs[..|dsts|] == srcs;
      forall R: seq<Val> | |R| == size ensures Delivered(R, SeqCopy(R, dsts, srcs), dsts, srcs) {
        SafeCopies(R, dsts, srcs, |dsts|);
      }
    } else {
      assert dsts[..|dsts|] == dsts && srcs[..|dsts|] == srcs;
      var R := HazardShows(dsts, srcs, size, |dsts|);
    }
  }

  // ---------------------------------------------------------------- the emitted copies

  /** The registers the emitted copies read. */
  function Sources(dsts: seq<nat>, vals: seq<Value>, s: State): (srcs: seq<nat>)
    requires |dsts| == |vals|
    ensures |srcs| == |vals|
    decreases |vals|
  {
    if vals == [] then []
    else
      var (r, s1) := RegOf(vals[0], s);
      [r] + Sources(dsts[1..], vals[1..], EmitBuiltin(dsts[0], Identity, [r], s1).s)
  }

  /** Running the emitted copies is copying in sequence, hazard or not. */
  lemma {:induction false} CopiesAreSequential(P: Code, dsts: seq<nat>, vals: seq<Value>, s: State, fin: State, pc: int,
                                               R: seq<Val>, w: World, kinds: Kinds)
    requires Good(s, kinds) && BuiltinKinds(kinds) && PlainValues(vals, kinds) && |dsts| == |vals|
    requires fin.funcs <= P.funcs
    requires var g := GenCopies(dsts, vals, s); Extends(g.s, fin) && At(P.instrs, pc, g.code)
    requires CopyRegs(dsts, Sources(dsts, vals, s), |R|)
    ensures Steps(P, Running(pc, R, w), |dsts|) == Running(pc + |dsts|, SeqCopy(R, dsts, Sources(dsts, vals, s)), w)
    decreases |vals|
  {
    hide Good, Extends, Steps, At, EmitCall, RegOf, CallBuiltin, Dispatch;
    if vals == [] {
      NoSteps(P, Running(pc, R, w));
    } else {
      var (r, s1) := RegOf(vals[0], s);
      var c := EmitBuiltin(dsts[0], Identity, [r], s1);
      var rest := GenCopies(dsts[1..], vals[1..], c.s);
      var srcs := Sources(dsts, vals, s);
      assert srcs[0] == r && srcs[1..] == Sources(dsts[1..], vals[1..], c.s);
      RegOfOk(vals[0], s, kinds);
      EmitCallOk(dsts[0], Builtin, Core(Identity), [r], [], s1, kinds);
      GenCopiesOk(dsts[1..], vals[1..], c.s, kinds);
      ExtendsTrans(c.s, rest.s, fin);
      AtParts(P.instrs, pc, c.code, rest.code);
      FuncsGrow(c.s, fin);
      OneCopy(P, dsts[0], r, s1, pc, R, w, kinds);
      CopiesAreSequential(P, dsts[1..], vals[1..], c.s, fin, pc + 1, R[dsts[0] := R[r]], w, kinds);
      StepsAdd(P, Running(pc, R, w), 1, |dsts| - 1);
    }
  }

  /** A loop that swaps its two carried variables. */
  predicate Swaps(op: Op) {
    op.ForOp? && |op.iters| == 2 && |op.body.yielded| == 2 && op.iters[0].v != op.iters[1].v &&
    op.body.yielded[0].Var? && op.body.yielded[0].id == op.iters[1].v &&
    op.body.yielded[1].Var? && op.body.yielded[1].id == op.iters[0].v
  }

  /** It is the smallest victim: the code that is emitted to carry its values on leaves both equal. */
  lemma {:induction false} SwapLosesAValue(P: Code, op: Op, a: nat, b: nat, s: State, fin: State, pc: int, R: seq<Val>,
                                           w: World, kinds: Kinds)
    requires Swaps(op) && Good(s, kinds) && BuiltinKinds(kinds) && fin.funcs <= P.funcs
    requires a != b && a < |R| && b < |R| && op.iters[0].v in s.env && op.iters[1].v in s.env
    requires s.env[op.iters[0].v] == a && s.env[op.iters[1].v] == b
    requires var g := GenCopies([a, b], op.body.yielded, s); Extends(g.s, fin) && At(P.instrs, pc, g.code)
    ensures !CopySafe(op.body.yielded, [op.iters[0].v, op.iters[1].v])
    ensures Steps(P, Running(pc, R, w), 2) == Running(pc + 2, R[a := R[b]], w)
  {
    hide Good, Extends, Steps, At, GenCopies, EmitCall;
    var vals := op.body.yielded;
    SourcesAt([a, b], vals, s, 0, kinds);
    SourcesAt([a, b], vals, s, 1, kinds);
    assert Sources([a, b], vals, s) == [b, a];
    CopiesAreSequential(P, [a, b], vals, s, fin, pc, R, w, kinds);
    var R1 := R[a := R[b]];
    assert [a, b][1..] == [b] && [b, a][1..] == [a] && [b][1..] == [] && [a][1..] == [];
    assert SeqCopy(R1, [b], [a]) == R1[b := R1[a]] == R1;
  }

  lemma {:induction false} OneCopy(P: Code, dst: nat, src: nat, s: State, pc: int, R: seq<Val>, w: World, kinds: Kinds)
    requires Good(s, kinds) && BuiltinKinds(kinds) && dst < |R| && src < |R|
    requires var g := EmitBuiltin(dst, Identity, [src], s); g.s.funcs <= P.funcs && At(P.instrs, pc, g.code)
    ensures Steps(P, Running(pc, R, w), 1) == Running(pc + 1, R[dst := R[src]], w)
  {
    hide Good, Steps, At, EmitCall;
    assert RegsHold([src], [R[src]], R);
    BuiltinRuns(P, pc, R, w, dst, Identity, [src], [R[src]], s, kinds);
  }

  lemma {:induction false} NoSteps(P: Code, st: Status)
    ensures Steps(P, st, 0) == st
  {
  }

  lemma FuncsGrow(s: State, fin: State)
    requires Extends(s, fin)
    ensures s.funcs <= fin.funcs
  {
  }

  lemma {:induction false} SourcesAt(dsts: seq<nat>, vals: seq<Value>, s: State, k: nat, kinds: Kinds)
    requires Good(s, kinds) && BuiltinKinds(kinds) && PlainValues(vals, kinds) && |dsts| == |vals| && k < |vals|
    ensures if vals[k].Imm? then Sources(dsts, vals, s)[k] >= s.next
      else Sources(dsts, vals, s)[k] == Lookup(s, vals[k].id)
    decreases |vals|
  {
    if k > 0 {
      var (r, s1) := RegOf(vals[0], s);
      RegOfOk(vals[0], s, kinds);
      EmitCallOk(dsts[0], Builtin, Core(Identity), [r], [], s1, kinds);
      SourcesAt(dsts[1..], vals[1..], EmitBuiltin(dsts[0], Identity, [r], s1).s, k - 1, kinds);
    } else if vals[0].Imm? {
      ConstRegOk(vals[0].c, s, kinds);
    }
  }

  /** The side condition on loops is exactly the absence of hazards among the emitted copies. */
  lemma {:induction false} CopySafeIsExact(yielded: seq<Value>, vars: seq<nat>, dsts: seq<nat>, s: State, kinds: Kinds)
    requires Good(s, kinds) && BuiltinKinds(kinds) && PlainValues(yielded, kinds) && |dsts| == |yielded| == |vars|
    requires forall k :: 0 <= k < |vars| ==> vars[k] in s.env && dsts[k] == s.env[vars[k]]
    requires forall j, i :: 0 <= i < |vars| && 0 <= j < |yielded| && !yielded[j].Imm? ==>
      Lookup(s, yielded[j].id) == dsts[i] ==> yielded[j].id == vars[i]
    ensures CopySafe(yielded, vars) <==> NoHazard(dsts, Sources(dsts, yielded, s))
  {
    var srcs := Sources(dsts, yielded, s);
    forall k | 0 <= k < |yielded|
      ensures if yielded[k].Imm? then srcs[k] >= s.next else srcs[k] == Lookup(s, yielded[k].id)
    {
      SourcesAt(dsts, yielded, s, k, kinds);
    }
    forall i, j | 0 <= i < |yielded| && 0 <= j < |yielded|
      ensures srcs[j] == dsts[i] <==> !yielded[j].Imm? && yielded[j].id == vars[i]
    {
    }
  }
}

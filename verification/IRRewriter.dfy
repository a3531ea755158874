/** The rewriter object: one substitution map, updated while blocks are walked
    (python/devproc2/compiler/passes/_rewriter.py).

    Object creation is a counter of unused identities.  The three passes differ in one branch each;
    the overridden methods are cases of one method here. */
module IRRewriter {
  import opened Bytecode
  import opened IRValues
  import opened TensorIR
  import opened Rewriter

  lemma {:induction false} RwAppend(P: Pass, a: seq<Op>, b: seq<Op>, sub: Sub, next: nat)
    ensures var x := RwOps(P, a, sub, next); var y := RwOps(P, b, x.sub, x.next);
      RwOps(P, a + b, sub, next) == Rw(x.ops + y.ops, y.sub, y.next)
    decreases |a|
  {
    hide RwOp;
    if a == [] {
      assert a + b == b;
    } else {
      var first := RwOp(P, a[0], sub, next);
      assert (a + b)[1..] == a[1..] + b;
      RwAppend(P, a[1..], b, first.sub, first.next);
      var x := RwOps(P, a[1..], first.sub, first.next);
      var y := RwOps(P, b, x.sub, x.next);
      assert first.ops + (x.ops + y.ops) == (first.ops + x.ops) + y.ops;
    }
  }

  lemma {:induction false} RwNext(P: Pass, ops: seq<Op>, k: nat, sub: Sub, next: nat)
    requires k < |ops|
    ensures var x := RwOps(P, ops[..k], sub, next); var y := RwOp(P, ops[k], x.sub, x.next);
      RwOps(P, ops[..k + 1], sub, next) == Rw(x.ops + y.ops, y.sub, y.next)
  {
    hide RwOp;
    var x := RwOps(P, ops[..k], sub, next);
    var y := RwOp(P, ops[k], x.sub, x.next);
    assert ops[..k + 1] == ops[..k] + [ops[k]];
    RwAppend(P, ops[..k], [ops[k]], sub, next);
    assert [ops[k]][1..] == [];
    assert RwOps(P, [ops[k]], x.sub, x.next) == Rw(y.ops + [], y.sub, y.next) && y.ops + [] == y.ops;
  }

  lemma {:induction false} RegisterNext(sub: Sub, olds: seq<nat>, news: seq<nat>, k: nat)
    requires |olds| == |news| && k < |olds|
    ensures Register(sub, olds[..k + 1], news[..k + 1]) == Register(sub, olds[..k], news[..k])[olds[k] := news[k]]
    decreases k
  {
    if k == 0 {
      assert olds[..1] == [olds[0]] && news[..1] == [news[0]] && olds[..1][1..] == [] && news[..1][1..] == [];
      assert Register(sub, olds[..0], news[..0]) == sub;
    } else {
      assert olds[..k + 1][1..] == olds[1..][..k] && news[..k + 1][1..] == news[1..][..k];
      assert olds[..k][1..] == olds[1..][..k - 1] && news[..k][1..] == news[1..][..k - 1];
      RegisterNext(sub[olds[0] := news[0]], olds[1..], news[1..], k - 1);
    }
  }

  class Rewriting {
    const P: Pass
    var sub: Sub
    var next: nat

    constructor (P: Pass, next: nat)
      ensures this.P == P && this.next == next && sub == map[]
    {
      this.P := P;
      this.next := next;
      sub := map[];
    }

    /** The identity of a new object. */
    method New() returns (id: nat)
      modifies this`next
      ensures id == old(next) && next == old(next) + 1
    {
      id := next;
      next := next + 1;
    }

    /** New results for an op, registered in order. */
    method Replace(olds: seq<nat>) returns (news: seq<nat>)
      modifies this
      ensures news == Fresh(|olds|, old(next)) && next == old(next) + |olds|
      ensures sub == Register(old(sub), olds, news)
    {
      news := [];
      for k := 0 to |olds|
        invariant news == Fresh(k, old(next)) && next == old(next) + k && sub == old(sub)
      {
        var id := New();
        news := news + [id];
      }
      for k := 0 to |olds|
        invariant sub == Register(old(sub), olds[..k], news[..k]) && next == old(next) + |olds|
      {
        sub := sub[olds[k] := news[k]];
        RegisterNext(old(sub), olds, news, k);
      }
      assert olds[..|olds|] == olds && news[..|olds|] == news;
    }

    /** An op without regions.  A selected functional call becomes a new empty tensor and a call that
        writes it; users of the call see the tensor. */
    method RewriteLeaf(op: Op) returns (ops: seq<Op>)
      requires IsLeaf(op)
      modifies this
      ensures Rw(ops, sub, next) == RwLeaf(P, op, old(sub), old(next))
    {
      if Selected(P, op) {
        var res := New();
        sub := sub[op.res := res];
        ops := [CreateOp(res, op.name, Empty, op.spec, None),
                WriteCall(P.kernelOf(op).value, Svs(sub, op.args), Res(res))];
      } else if op.StorageOp? {
        sub := sub[op.res := op.res];
        ops := [op];
      } else if Results(op) == [] {
        ops := [Leaf(P, op, sub, next)];
      } else {
        var before := sub;
        var res := New();
        ops := [Leaf(P, op, before, res)];
        sub := sub[Results(op)[0] := res];
      }
    }

    /** Operands are substituted first, then regions are walked, then results are registered. */
    method RewriteOp(op: Op) returns (ops: seq<Op>)
      modifies this
      ensures Rw(ops, sub, next) == RwOp(P, op, old(sub), old(next))
      decreases op, 1
    {
      hide RwRegion, RwLeaf;
      match op
      case IfOp(results, cond, thn, els) =>
        var cond' := Sv(sub, cond);
        var thn' := RewriteRegion(thn);
        var els': Option<Region> := None;
        if els.Some? {
          var r := RewriteRegion(els.value);
          els' := Some(r);
        }
        var news := Replace(results);
        ops := [IfOp(news, cond', thn', els')];
      case ForOp(results, loopVar, bounds, iters, body) =>
        var bounds', iters' := Svs(sub, bounds), SubstIters(sub, iters);
        var body' := RewriteRegion(body);
        var news := Replace(results);
        ops := [ForOp(news, loopVar, bounds', iters', body')];
      case _ => ops := RewriteLeaf(op);
    }

    method RewriteRegion(r: Region) returns (region: Region)
      modifies this
      ensures RwRegionResult(region, sub, next) == RwRegion(P, r, old(sub), old(next))
      decreases r, 0
    {
      var ops := RewriteBlock(r.ops);
      region := Region(ops, Svs(sub, r.yielded));
    }

    method RewriteBlock(block: seq<Op>) returns (newOps: seq<Op>)
      modifies this
      ensures Rw(newOps, sub, next) == RwOps(P, block, old(sub), old(next))
      decreases block, 0
    {
      newOps := [];
      assert block[..0] == [];
      for k := 0 to |block|
        invariant Rw(newOps, sub, next) == RwOps(P, block[..k], old(sub), old(next))
      {
        RwNext(P, block, k, old(sub), old(next));
        var ops := RewriteOp(block[k]);
        newOps := newOps + ops;
      }
      assert block[..|block|] == block;
    }

    /** The map starts empty for every function. */
    method RewriteFn(fn: Func) returns (fn': Func)
      modifies this
      ensures fn' == RwFunc(P, fn, old(next))
    {
      sub := map[];
      var body := RewriteBlock(fn.body);
      fn' := Func(fn.params, body, Svs(sub, fn.ret));
    }
  }
}

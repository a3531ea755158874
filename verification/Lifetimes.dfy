/** Live ranges of created tensors in the linear order of ops
    (python/devproc2/compiler/passes/memory_planning.py). */
module Lifetimes {
  import opened IRValues
  import opened TensorIR
  import opened AliasAnalysis

  /** A tensor and where it is created. */
  datatype Creation = Creation(res: nat, name: string, spec: Spec, index: nat)

  predicate IsCreation(n: Node, c: Creation) {
    n.OpNode? && n.op.CreateOp? && n.op.res == c.res && n.op.name == c.name && n.op.spec == c.spec
  }

  function Creations(nodes: seq<Node>): (cs: seq<Creation>)
    ensures forall c <- cs :: c.index < |nodes| && IsCreation(nodes[c.index], c)
    ensures forall i :: 0 <= i < |nodes| && nodes[i].OpNode? && nodes[i].op.CreateOp? ==>
      Creation(nodes[i].op.res, nodes[i].op.name, nodes[i].op.spec, i) in cs
    ensures forall j, k :: 0 <= j < k < |cs| ==> cs[j].index < cs[k].index
  {
    if nodes == [] then []
    else
      var n := nodes[|nodes| - 1];
      var cs := Creations(nodes[..|nodes| - 1]);
      if n.OpNode? && n.op.CreateOp? then cs + [Creation(n.op.res, n.op.name, n.op.spec, |nodes| - 1)] else cs
  }

  /** Distinct names, as the pass insists, and distinct results. */
  predicate Unambiguous(cs: seq<Creation>) {
    forall j, k :: 0 <= j < k < |cs| ==> cs[j].name != cs[k].name && cs[j].res != cs[k].res
  }

  function ResIds(cs: seq<Creation>): set<nat> {
    set c <- cs :: c.res
  }

  function IsCreated(cs: seq<Creation>): Matcher {
    (v: Value) => v.Res? && v.id in ResIds(cs)
  }

  /** The node refers to the tensor, directly or through forwarding. */
  ghost predicate Refers(G: Graph, P: Matcher, n: Node, res: nat) {
    exists r :: r in Refs(n) && Reaches(G, P, r, Res(res))
  }

  function Larger(a: int, b: int): int {
    if a >= b then a else b
  }

  /** The largest index below n of a node that refers to the tensor; `first` when there is none. */
  ghost function LastRef(G: Graph, P: Matcher, nodes: seq<Node>, res: nat, first: int, n: nat): int
    requires n <= |nodes|
    decreases n
  {
    if n == 0 then first
    else
      var m := LastRef(G, P, nodes, res, first, n - 1);
      if Refers(G, P, nodes[n - 1], res) then Larger(m, n - 1) else m
  }

  /** No reference lies beyond it, and it is itself a reference or the definition. */
  lemma {:induction false} LastRefIsLast(G: Graph, P: Matcher, nodes: seq<Node>, res: nat, first: int, n: nat)
    requires n <= |nodes|
    ensures var last := LastRef(G, P, nodes, res, first, n);
      last >= first && (last == first || (0 <= last < n && Refers(G, P, nodes[last], res))) &&
      forall i :: 0 <= i < n && Refers(G, P, nodes[i], res) ==> i <= last
    decreases n
  {
    hide Refers;
    if n > 0 { LastRefIsLast(G, P, nodes, res, first, n - 1); }
  }

  /** What a table of last uses says about every tensor. */
  ghost predicate LastUses(table: map<string, int>, cs: seq<Creation>, G: Graph, nodes: seq<Node>, n: nat)
    requires n <= |nodes|
  {
    table.Keys == (set c <- cs :: c.name) &&
    forall c <- cs :: table[c.name] == LastRef(G, IsCreated(cs), nodes, c.res, c.index, n)
  }

  // ---------------------------------------------------------------- first pass: data flow

  /** A tensor has been met among the values resolved so far. */
  ghost predicate Met(refs: seq<Value>, r: nat, G: Graph, P: Matcher, res: nat)
    requires r <= |refs|
  {
    exists j :: 0 <= j < r && Reaches(G, P, refs[j], Res(res))
  }

  /** The table while node `i` is being looked at: tensors already met have been extended to i. */
  ghost predicate Extended(table: map<string, int>, before: map<string, int>, cs: seq<Creation>, met: set<nat>,
                           i: int) {
    table.Keys == before.Keys && (forall c <- cs :: c.name in before) &&
    forall c <- cs :: table[c.name] == if c.res in met then Larger(before[c.name], i) else before[c.name]
  }

  function NameOf(cs: seq<Creation>, res: nat): string
    requires Unambiguous(cs) && res in ResIds(cs)
  {
    var c :| c in cs && c.res == res;
    c.name
  }

  lemma NameOfIs(cs: seq<Creation>, c: Creation)
    requires Unambiguous(cs) && c in cs
    ensures c.res in ResIds(cs) && NameOf(cs, c.res) == c.name
  {
    var d :| d in cs && d.res == c.res && NameOf(cs, c.res) == d.name;
    var j :| 0 <= j < |cs| && cs[j] == c;
    var k :| 0 <= k < |cs| && cs[k] == d;
    assert j == k;
  }

  /** Extends the last use of every tensor in `found` to index i. */
  method Extend(table: map<string, int>, cs: seq<Creation>, found: set<Value>, i: nat, ghost before: map<string, int>,
                ghost met: set<nat>)
    returns (table': map<string, int>)
    requires Unambiguous(cs) && Extended(table, before, cs, met, i)
    requires forall v <- found :: v.Res? && v.id in ResIds(cs)
    ensures Extended(table', before, cs, met + (set v <- found | v.Res? :: v.id), i)
  {
    table' := table;
    var rest := found;
    ghost var seen := met;
    while rest != {}
      invariant rest <= found && seen == met + (set v <- found - rest | v.Res? :: v.id)
      invariant Extended(table', before, cs, seen, i)
      decreases |rest|
    {
      var v :| v in rest;
      var name := NameOf(cs, v.id);
      ExtendOne(table', before, cs, seen, i, v.id);
      table' := table'[name := Larger(table'[name], i)];
      SeenOne(found, rest, v, met, seen);
      rest := rest - {v};
      seen := seen + {v.id};
    }
    assert found - {} == found;
  }

  lemma SeenOne(found: set<Value>, rest: set<Value>, v: Value, met: set<nat>, seen: set<nat>)
    requires v in rest && rest <= found && v.Res? && seen == met + (set w <- found - rest | w.Res? :: w.id)
    ensures seen + {v.id} == met + (set w <- found - (rest - {v}) | w.Res? :: w.id)
  {
    assert found - (rest - {v}) == (found - rest) + {v};
  }

  lemma ExtendOne(table: map<string, int>, before: map<string, int>, cs: seq<Creation>, seen: set<nat>, i: int,
                  res: nat)
    requires Unambiguous(cs) && Extended(table, before, cs, seen, i) && res in ResIds(cs)
    ensures NameOf(cs, res) in table
    ensures Extended(table[NameOf(cs, res) := Larger(table[NameOf(cs, res)], i)], before, cs, seen + {res}, i)
  {
    var d :| d in cs && d.res == res;
    NameOfIs(cs, d);
    forall c | c in cs ensures c.name == NameOf(cs, res) <==> c.res == res { SameNameSameRes(cs, c, res); }
  }

  lemma SameNameSameRes(cs: seq<Creation>, c: Creation, res: nat)
    requires Unambiguous(cs) && c in cs && res in ResIds(cs)
    ensures c.name == NameOf(cs, res) <==> c.res == res
  {
    var d :| d in cs && d.res == res;
    NameOfIs(cs, d);
    NameOfIs(cs, c);
    var j :| 0 <= j < |cs| && cs[j] == c;
    var k :| 0 <= k < |cs| && cs[k] == d;
  }

  /** The created results that forwarding leads to. */
  ghost predicate FoundAre(found: set<Value>, G: Graph, P: Matcher, v: Value) {
    forall w :: w in found <==> Reaches(G, P, v, w)
  }

  /** One node: every tensor it refers to is extended to its index. */
  method ExtendNode(table: map<string, int>, cs: seq<Creation>, nodes: seq<Node>, i: nat, aliases: Analysis)
    returns (table': map<string, int>)
    requires Unambiguous(cs) && aliases.visiting == {} && i < |nodes|
    requires LastUses(table, cs, aliases.forwardEdges, nodes, i)
    modifies aliases`visiting
    ensures aliases.visiting == {} && LastUses(table', cs, aliases.forwardEdges, nodes, i + 1)
  {
    hide LastUses, LastRef, Reaches;
    table' := table;
    ghost var G, P := aliases.forwardEdges, IsCreated(cs);
    var refs := Refs(nodes[i]);
    ghost var met: set<nat> := {};
    StartExtended(table, cs, G, nodes, i);
    for r := 0 to |refs|
      modifies aliases`visiting
      invariant aliases.visiting == {}
      invariant Extended(table', table, cs, met, i)
      invariant forall c <- cs :: c.res in met <==> Met(refs, r, G, P, c.res)
    {
      var found := aliases.ResolveMatching(refs[r], IsCreated(cs));
      FoundExactly(G, cs, refs[r], found);
      table' := Extend(table', cs, found, i, table, met);
      met := met + (set v <- found | v.Res? :: v.id);
      forall c | c in cs ensures c.res in met <==> Met(refs, r + 1, G, P, c.res) {
        MetNext(refs, r, G, P, c.res, found);
      }
    }
    NodeExtended(table', table, cs, G, nodes, i, met);
  }

  lemma {:induction false} FoundExactly(G: Graph, cs: seq<Creation>, v: Value, found: set<Value>)
    requires found == Resolve(G, IsCreated(cs), v, {})
    ensures FoundAre(found, G, IsCreated(cs), v) && forall w <- found :: w.Res? && w.id in ResIds(cs)
  {
    forall w ensures w in found <==> Reaches(G, IsCreated(cs), v, w) { ResolveIsReachability(G, IsCreated(cs), v, w); }
  }

  lemma StartExtended(table: map<string, int>, cs: seq<Creation>, G: Graph, nodes: seq<Node>, i: nat)
    requires i <= |nodes| && LastUses(table, cs, G, nodes, i)
    ensures Extended(table, table, cs, {}, i)
    ensures forall c <- cs :: !Met(Refs(if i < |nodes| then nodes[i] else YieldNode([])), 0, G, IsCreated(cs), c.res)
  {
  }

  lemma NodeExtended(table': map<string, int>, table: map<string, int>, cs: seq<Creation>, G: Graph, nodes: seq<Node>,
                     i: nat, met: set<nat>)
    requires i < |nodes| && LastUses(table, cs, G, nodes, i) && Extended(table', table, cs, met, i)
    requires var refs := Refs(nodes[i]); forall c <- cs :: c.res in met <==> Met(refs, |refs|, G, IsCreated(cs), c.res)
    ensures LastUses(table', cs, G, nodes, i + 1)
  {
    hide Reaches;
    var refs := Refs(nodes[i]);
    forall c | c in cs ensures c.res in met <==> Refers(G, IsCreated(cs), nodes[i], c.res) {
      MetAll(nodes[i], G, IsCreated(cs), c.res);
    }
  }

  lemma MetAll(n: Node, G: Graph, P: Matcher, res: nat)
    ensures Met(Refs(n), |Refs(n)|, G, P, res) <==> Refers(G, P, n, res)
  {
    var refs := Refs(n);
    if Met(refs, |refs|, G, P, res) {
      var j :| 0 <= j < |refs| && Reaches(G, P, refs[j], Res(res));
      assert refs[j] in refs;
    }
    if Refers(G, P, n, res) {
      var v :| v in refs && Reaches(G, P, v, Res(res));
      var j :| 0 <= j < |refs| && refs[j] == v;
    }
  }

  /** Last uses from operands and effects of every op, in linear order. */
  method ExplicitLastUses(nodes: seq<Node>, cs: seq<Creation>, aliases: Analysis) returns (table: map<string, int>)
    requires Unambiguous(cs) && aliases.visiting == {}
    modifies aliases`visiting
    ensures aliases.visiting == {}
    ensures LastUses(table, cs, aliases.forwardEdges, nodes, |nodes|)
  {
    table := map c <- cs :: c.name := c.index;
    IndexTable(cs, table);
    for i := 0 to |nodes|
      modifies aliases`visiting
      invariant aliases.visiting == {}
      invariant LastUses(table, cs, aliases.forwardEdges, nodes, i)
    {
      table := ExtendNode(table, cs, nodes, i, aliases);
    }
  }

  lemma IndexTable(cs: seq<Creation>, table: map<string, int>)
    requires Unambiguous(cs) && table == map c <- cs :: c.name := c.index
    ensures table.Keys == (set c <- cs :: c.name) && forall c <- cs :: table[c.name] == c.index
  {
  }

  lemma MetNext(refs: seq<Value>, r: nat, G: Graph, P: Matcher, res: nat, found: set<Value>)
    requires r < |refs| && FoundAre(found, G, P, refs[r])
    ensures Met(refs, r + 1, G, P, res) <==> Met(refs, r, G, P, res) || res in (set v <- found | v.Res? :: v.id)
  {
    if res in (set v <- found | v.Res? :: v.id) {
      var v :| v in found && v.Res? && v.id == res;
      assert v == Res(res);
    }
    if Met(refs, r + 1, G, P, res) {
      var j :| 0 <= j < r + 1 && Reaches(G, P, refs[j], Res(res));
      if j == r { assert Res(res) in found; }
    }
  }

  // ---------------------------------------------------------------- second pass: effects

  /** What a node refers to, it already extended. */
  lemma AlreadyExtended(table: map<string, int>, cs: seq<Creation>, G: Graph, nodes: seq<Node>, i: nat, v: Value,
                        res: nat)
    requires Unambiguous(cs) && LastUses(table, cs, G, nodes, |nodes|) && i < |nodes|
    requires v in Refs(nodes[i]) && Reaches(G, IsCreated(cs), v, Res(res)) && res in ResIds(cs)
    ensures NameOf(cs, res) in table && table[NameOf(cs, res)] >= i
  {
    var c :| c in cs && c.res == res;
    NameOfIs(cs, c);
    LastRefIsLast(G, IsCreated(cs), nodes, res, c.index, |nodes|);
    assert Refers(G, IsCreated(cs), nodes[i], res);
  }

  /** Extends the tensors a call lists in its effect. */
  method ExtendListed(table: map<string, int>, cs: seq<Creation>, nodes: seq<Node>, i: nat, values: seq<Value>,
                      aliases: Analysis)
    returns (table': map<string, int>)
    requires Unambiguous(cs) && aliases.visiting == {} && i < |nodes| && forall v <- values :: v in Refs(nodes[i])
    requires LastUses(table, cs, aliases.forwardEdges, nodes, |nodes|)
    modifies aliases`visiting
    ensures aliases.visiting == {} && table' == table
  {
    table' := table;
    ghost var G, P := aliases.forwardEdges, IsCreated(cs);
    for k := 0 to |values|
      modifies aliases`visiting
      invariant aliases.visiting == {} && table' == table
    {
      var found := aliases.ResolveMatching(values[k], IsCreated(cs));
      forall w ensures w in found <==> Reaches(G, P, values[k], w) { ResolveIsReachability(G, P, values[k], w); }
      table' := ExtendFound(table', cs, nodes, i, values[k], found, G);
    }
  }

  method ExtendFound(table: map<string, int>, cs: seq<Creation>, nodes: seq<Node>, i: nat, v: Value, found: set<Value>,
                     ghost G: Graph)
    returns (table': map<string, int>)
    requires Unambiguous(cs) && i < |nodes| && v in Refs(nodes[i]) && LastUses(table, cs, G, nodes, |nodes|)
    requires FoundAre(found, G, IsCreated(cs), v)
    ensures table' == table
  {
    hide LastUses;
    table' := table;
    var rest := found;
    while rest != {}
      invariant rest <= found && table' == table
      decreases |rest|
    {
      var w :| w in rest;
      assert Reaches(G, IsCreated(cs), v, w) && w == Res(w.id);
      AlreadyExtended(table, cs, G, nodes, i, v, w.id);
      table' := table'[NameOf(cs, w.id) := Larger(table'[NameOf(cs, w.id)], i)];
      assert table' == table;
      rest := rest - {w};
    }
  }

  /** A call with unknown effects keeps every tensor alive that is live anyway. */
  method ExtendOpaque(table: map<string, int>, cs: seq<Creation>, i: nat, uses: map<string, int>)
    returns (table': map<string, int>)
    requires (forall c <- cs :: c.name in uses) && table == uses
    ensures table' == table
  {
    table' := table;
    for k := 0 to |cs|
      invariant table' == table
    {
      var c := cs[k];
      assert c in cs;
      if c.index <= i && uses[c.name] >= i { table' := table'[c.name := Larger(table'[c.name], i)]; }
    }
  }

  /** The second pass over effects changes no lifetime: effects were counted in the first. */
  method LastUsesWithEffects(nodes: seq<Node>, cs: seq<Creation>, aliases: Analysis, uses: map<string, int>)
    returns (table: map<string, int>)
    requires Unambiguous(cs) && aliases.visiting == {} && LastUses(uses, cs, aliases.forwardEdges, nodes, |nodes|)
    modifies aliases`visiting
    ensures aliases.visiting == {} && table == uses
  {
    table := uses;
    for i := 0 to |nodes|
      modifies aliases`visiting
      invariant aliases.visiting == {} && table == uses
    {
      if nodes[i].OpNode? && nodes[i].op.CallOp? {
        var effect := EffectOf(nodes[i].op);
        table := ExtendListed(table, cs, nodes, i, effect.reading, aliases);
        table := ExtendListed(table, cs, nodes, i, effect.writing, aliases);
        if effect.isOpaque { table := ExtendOpaque(table, cs, i, uses); }
      }
    }
  }
}

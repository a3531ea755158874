/** Greedy assignment of tensors to storages (python/devproc2/compiler/passes/memory_planning.py). */
module StoragePlan {
  import opened Bytecode
  import opened PrimExprs
  import opened ShapeBounds

  datatype Interval = Interval(first: int, last: int)

  predicate Overlap(a: Interval, b: Interval) {
    a.first <= b.last && b.first <= a.last
  }

  datatype Tensor = Tensor(name: string, device: string, size: Option<int>, sizeExpr: PrimExpr, interval: Interval,
                           reusable: bool)

  datatype Entry = Entry(id: nat, device: string, size: Option<int>, sizeExpr: PrimExpr, alignment: nat,
                         users: seq<string>, intervals: seq<Interval>)

  datatype Plan = Plan(entries: seq<Entry>, slot: map<string, nat>)

  const NOTHING := Plan([], map[])

  /** Room for the tensor: enough bytes, or the same symbolic size. */
  predicate Fits(e: Entry, t: Tensor) {
    if e.size.Some? && t.size.Some? then e.size.value >= t.size.value
    else e.size.None? && t.size.None? && SameExpr(e.sizeExpr, t.sizeExpr)
  }

  predicate Accepts(e: Entry, t: Tensor) {
    e.device == t.device && Fits(e, t) && forall iv <- e.intervals :: !Overlap(t.interval, iv)
  }

  function NewEntry(id: nat, t: Tensor): Entry {
    Entry(id, t.device, t.size, t.sizeExpr, 256, [t.name], [t.interval])
  }

  function Join(e: Entry, t: Tensor): Entry {
    e.(users := e.users + [t.name], intervals := e.intervals + [t.interval])
  }

  /** The first entry from k on that accepts the tensor, or their number. */
  function FirstFit(entries: seq<Entry>, t: Tensor, k: nat): (i: nat)
    requires k <= |entries|
    ensures k <= i <= |entries|
    ensures i < |entries| ==> Accepts(entries[i], t)
    ensures forall j :: k <= j < i ==> !Accepts(entries[j], t)
    decreases |entries| - k
  {
    if k == |entries| || Accepts(entries[k], t) then k else FirstFit(entries, t, k + 1)
  }

  function Assign(p: Plan, t: Tensor): Plan {
    var i := if t.reusable then FirstFit(p.entries, t, 0) else |p.entries|;
    if i < |p.entries| then Plan(p.entries[i := Join(p.entries[i], t)], p.slot[t.name := p.entries[i].id])
    else Plan(p.entries + [NewEntry(|p.entries|, t)], p.slot[t.name := |p.entries|])
  }

  function Greedy(ts: seq<Tensor>): Plan {
    if ts == [] then NOTHING else Assign(Greedy(ts[..|ts| - 1]), ts[|ts| - 1])
  }

  // ---------------------------------------------------------------- sorting by definition

  predicate Sorted(ts: seq<Tensor>) {
    forall j, k :: 0 <= j < k < |ts| ==> ts[j].interval.first <= ts[k].interval.first
  }

  /** After all tensors defined no later. */
  function Insert(ts: seq<Tensor>, t: Tensor): (r: seq<Tensor>) {
    if ts == [] || ts[|ts| - 1].interval.first <= t.interval.first then ts + [t]
    else Insert(ts[..|ts| - 1], t) + [ts[|ts| - 1]]
  }

  /** Stable sorting by first definition. */
  function Sort(ts: seq<Tensor>): seq<Tensor> {
    if ts == [] then [] else Insert(Sort(ts[..|ts| - 1]), ts[|ts| - 1])
  }

  lemma {:induction false} InsertMultiset(ts: seq<Tensor>, t: Tensor)
    ensures multiset(Insert(ts, t)) == multiset(ts) + multiset{t}
  {
    if ts != [] {
      InsertMultiset(ts[..|ts| - 1], t);
      assert ts == ts[..|ts| - 1] + [ts[|ts| - 1]];
    }
  }

  lemma {:induction false} InsertSorted(ts: seq<Tensor>, t: Tensor, m: int)
    requires Sorted(ts) && t.interval.first <= m && forall j :: 0 <= j < |ts| ==> ts[j].interval.first <= m
    ensures Sorted(Insert(ts, t)) && forall j :: 0 <= j < |Insert(ts, t)| ==> Insert(ts, t)[j].interval.first <= m
  {
    if ts != [] && ts[|ts| - 1].interval.first > t.interval.first {
      InsertSorted(ts[..|ts| - 1], t, ts[|ts| - 1].interval.first);
    }
  }

  lemma {:induction false} LatestFirst(ts: seq<Tensor>, t: Tensor) returns (m: int)
    ensures t.interval.first <= m && forall j :: 0 <= j < |ts| ==> ts[j].interval.first <= m
  {
    if ts == [] {
      m := t.interval.first;
    } else {
      m := LatestFirst(ts[..|ts| - 1], t);
      m := Max2(m, ts[|ts| - 1].interval.first);
    }
  }

  lemma {:induction false} SortOk(ts: seq<Tensor>)
    ensures Sorted(Sort(ts)) && multiset(Sort(ts)) == multiset(ts)
  {
    if ts != [] {
      SortOk(ts[..|ts| - 1]);
      InsertMultiset(Sort(ts[..|ts| - 1]), ts[|ts| - 1]);
      var m := LatestFirst(Sort(ts[..|ts| - 1]), ts[|ts| - 1]);
      InsertSorted(Sort(ts[..|ts| - 1]), ts[|ts| - 1], m);
      assert ts == ts[..|ts| - 1] + [ts[|ts| - 1]];
    }
  }

  /** Tensors collected in the order of their definition stay as they are. */
  lemma {:induction false} SortSorted(ts: seq<Tensor>)
    requires Sorted(ts)
    ensures Sort(ts) == ts
  {
    if ts != [] {
      var init, last := ts[..|ts| - 1], ts[|ts| - 1];
      assert Sorted(init);
      SortSorted(init);
      if init != [] { assert init[|init| - 1] == ts[|ts| - 2]; }
      assert Insert(init, last) == init + [last] == ts;
    }
  }

  // ---------------------------------------------------------------- the planner

  /** First fit over tensors sorted by definition; only reusable tensors look for an old storage. */
  method GreedyPlan(tensors: seq<Tensor>) returns (p: Plan)
    ensures p == Greedy(Sort(tensors))
  {
    var ts := Sort(tensors);
    var entries: seq<Entry> := [];
    var slot: map<string, nat> := map[];
    assert ts[..0] == [];
    for k := 0 to |ts|
      invariant Plan(entries, slot) == Greedy(ts[..k])
    {
      assert ts[..k + 1][..k] == ts[..k];
      var t := ts[k];
      var i := |entries|;
      if t.reusable {
        i := 0;
        while i < |entries| && !Accepts(entries[i], t)
          invariant i <= |entries| && FirstFit(entries, t, 0) == FirstFit(entries, t, i)
          decreases |entries| - i
        {
          i := i + 1;
        }
      }
      if i < |entries| {
        slot := slot[t.name := entries[i].id];
        entries := entries[i := Join(entries[i], t)];
      } else {
        slot := slot[t.name := |entries|];
        entries := entries + [NewEntry(|entries|, t)];
      }
    }
    assert ts[..|ts|] == ts;
    p := Plan(entries, slot);
  }

  // ---------------------------------------------------------------- what every plan keeps

  predicate DistinctTensors(ts: seq<Tensor>) {
    forall j, k :: 0 <= j < k < |ts| ==> ts[j].name != ts[k].name
  }

  /** The tensor sits in an entry of its device that has room for it and knows its interval. */
  predicate Seated(p: Plan, t: Tensor) {
    t.name in p.slot && p.slot[t.name] < |p.entries| &&
    var e := p.entries[p.slot[t.name]];
    e.device == t.device && Fits(e, t) && t.interval in e.intervals && t.name in e.users
  }

  /** The entry knows nothing but tensors assigned to it. */
  ghost predicate Occupied(p: Plan, ts: seq<Tensor>, i: nat)
    requires i < |p.entries|
  {
    p.entries[i].id == i && p.entries[i].intervals != [] &&
    forall iv <- p.entries[i].intervals :: HasTenant(p.slot, ts, i, iv)
  }

  ghost predicate HasTenant(slot: map<string, nat>, ts: seq<Tensor>, i: nat, iv: Interval) {
    exists t :: t in ts && t.name in slot && slot[t.name] == i && t.interval == iv
  }

  ghost predicate PlanOk(p: Plan, ts: seq<Tensor>) {
    && p.slot.Keys == (set t <- ts :: t.name)
    && (forall t <- ts :: Seated(p, t))
    && (forall i :: 0 <= i < |p.entries| ==> Occupied(p, ts, i))
    && (forall j, k :: 0 <= j < k < |ts| && p.slot[ts[j].name] == p.slot[ts[k].name] ==>
        !Overlap(ts[j].interval, ts[k].interval))
  }

  /** Where the tensor goes. */
  lemma {:induction false} AssignedTo(p: Plan, ts: seq<Tensor>, t: Tensor)
    requires PlanOk(p, ts)
    ensures var f := if t.reusable then FirstFit(p.entries, t, 0) else |p.entries|;
      Assign(p, t).slot == p.slot[t.name := f] && (f < |p.entries| ==> Accepts(p.entries[f], t)) &&
      Assign(p, t).entries == if f < |p.entries| then p.entries[f := Join(p.entries[f], t)]
        else p.entries + [NewEntry(f, t)]
  {
    var f := if t.reusable then FirstFit(p.entries, t, 0) else |p.entries|;
    assert f < |p.entries| ==> Occupied(p, ts, f);
  }

  /** A tensor that joins a storage is never live together with one that is already there. */
  lemma NewcomerIsDisjoint(p: Plan, ts: seq<Tensor>, t: Tensor, j: nat)
    requires PlanOk(p, ts) && j < |ts| && ts[j].name != t.name && ts[j].name in Assign(p, t).slot
    requires t.name in Assign(p, t).slot
    requires Assign(p, t).slot[ts[j].name] == Assign(p, t).slot[t.name]
    ensures !Overlap(ts[j].interval, t.interval)
  {
    hide Assign, FirstFit, Occupied, Fits;
    AssignedTo(p, ts, t);
    assert ts[j] in ts && Seated(p, ts[j]);
  }

  lemma AssignSeats(p: Plan, ts: seq<Tensor>, t: Tensor, x: Tensor)
    requires PlanOk(p, ts) && (x in ts || x == t) && forall y <- ts :: y.name != t.name
    ensures Seated(Assign(p, t), x)
  {
    AssignedTo(p, ts, t);
    SameExprSelf(t.sizeExpr);
    if x in ts { assert Seated(p, x); }
  }

  lemma AssignOccupies(p: Plan, ts: seq<Tensor>, t: Tensor, j: nat)
    requires PlanOk(p, ts) && (forall y <- ts :: y.name != t.name) && j < |Assign(p, t).entries|
    ensures Occupied(Assign(p, t), ts + [t], j)
  {
    hide Assign, Accepts, Fits, Seated;
    AssignedTo(p, ts, t);
    var p', ts' := Assign(p, t), ts + [t];
    if j < |p.entries| { assert Occupied(p, ts, j); }
    forall iv | iv in p'.entries[j].intervals
      ensures HasTenant(p'.slot, ts', j, iv)
    {
      if j < |p.entries| && iv in p.entries[j].intervals {
        var x :| x in ts && x.name in p.slot && p.slot[x.name] == j && x.interval == iv;
        assert x in ts' && p'.slot[x.name] == j;
      } else {
        assert t in ts' && p'.slot[t.name] == j && t.interval == iv;
      }
    }
  }

  lemma AssignOk(p: Plan, ts: seq<Tensor>, t: Tensor)
    requires PlanOk(p, ts) && forall x <- ts :: x.name != t.name
    ensures PlanOk(Assign(p, t), ts + [t])
  {
    hide Seated, Occupied, Overlap, Assign;
    var p', ts' := Assign(p, t), ts + [t];
    AssignedTo(p, ts, t);
    forall x | x in ts' ensures Seated(p', x) { AssignSeats(p, ts, t, x); }
    forall j | 0 <= j < |p'.entries| ensures Occupied(p', ts', j) { AssignOccupies(p, ts, t, j); }
    forall j, k | 0 <= j < k < |ts'| && p'.slot[ts'[j].name] == p'.slot[ts'[k].name]
      ensures !Overlap(ts'[j].interval, ts'[k].interval)
    {
      assert ts'[j] == ts[j] && ts[j] in ts;
      if k == |ts| {
        NewcomerIsDisjoint(p, ts, t, j);
      } else {
        assert ts'[k] == ts[k] && ts[k] in ts;
      }
    }
  }

  lemma {:induction false} GreedyOk(ts: seq<Tensor>)
    requires DistinctTensors(ts)
    ensures PlanOk(Greedy(ts), ts)
  {
    if ts != [] {
      var init := ts[..|ts| - 1];
      GreedyOk(init);
      AssignOk(Greedy(init), init, ts[|ts| - 1]);
      assert init + [ts[|ts| - 1]] == ts;
    }
  }

  lemma SeatOf(ts: seq<Tensor>, a: Tensor)
    requires DistinctTensors(ts) && a in ts
    ensures var p := Greedy(ts);
      p.slot.Keys == (set t <- ts :: t.name) && p.slot[a.name] < |p.entries| &&
      p.entries[p.slot[a.name]].id == p.slot[a.name] && p.entries[p.slot[a.name]].device == a.device &&
      Fits(p.entries[p.slot[a.name]], a)
  {
    hide Greedy, DistinctTensors, Fits, HasTenant;
    GreedyOk(ts);
    assert Seated(Greedy(ts), a) && Occupied(Greedy(ts), ts, Greedy(ts).slot[a.name]);
  }

  lemma SharersAreApart(ts: seq<Tensor>, j: nat, k: nat)
    requires DistinctTensors(ts) && j < |ts| && k < |ts| && j != k
    ensures forall t <- ts :: t.name in Greedy(ts).slot
    ensures Greedy(ts).slot[ts[j].name] == Greedy(ts).slot[ts[k].name] ==> !Overlap(ts[j].interval, ts[k].interval)
  {
    hide Greedy, DistinctTensors, Seated, Occupied;
    GreedyOk(ts);
  }

  /** Every tensor has one storage, on its device and large enough; tensors that share one are never live together. */
  lemma {:induction false} PlanIsSound(ts: seq<Tensor>, a: Tensor, b: Tensor)
    requires DistinctTensors(ts) && Sorted(ts) && a in ts && b in ts && a != b
    ensures var p := Greedy(ts);
      p.slot.Keys == (set t <- ts :: t.name) && p.slot[a.name] < |p.entries| &&
      p.entries[p.slot[a.name]].id == p.slot[a.name] && p.entries[p.slot[a.name]].device == a.device &&
      Fits(p.entries[p.slot[a.name]], a) &&
      (p.slot[a.name] == p.slot[b.name] ==> a.device == b.device && !Overlap(a.interval, b.interval))
  {
    hide Greedy, DistinctTensors, Fits, Sorted, Overlap;
    var j :| 0 <= j < |ts| && ts[j] == a;
    var k :| 0 <= k < |ts| && ts[k] == b;
    SeatOf(ts, a);
    SeatOf(ts, b);
    SharersAreApart(ts, j, k);
  }

  // ---------------------------------------------------------------- which storage a tensor takes

  /** The plan as an assignment of storage numbers. */
  function Slots(ts: seq<Tensor>): (f: seq<nat>)
    requires DistinctTensors(ts)
    ensures |f| == |ts|
  {
    seq(|ts|, k requires 0 <= k < |ts| => SlotOf(ts, k))
  }

  function SlotOf(ts: seq<Tensor>, k: nat): nat
    requires k < |ts| && DistinctTensors(ts)
  {
    GreedyOk(ts);
    assert ts[k] in ts && Seated(Greedy(ts), ts[k]);
    Greedy(ts).slot[ts[k].name]
  }

  /** The first tensor of its storage. */
  predicate Opens(f: seq<nat>, k: nat)
    requires k < |f|
  {
    forall m :: 0 <= m < k ==> f[m] != f[k]
  }

  /** As many bytes as the tensor needs, or the same unknown number. */
  predicate AsLarge(opener: Tensor, t: Tensor) {
    match (opener.size, t.size)
    case (Some(have), Some(need)) => need <= have
    case (None, None) => SameExpr(opener.sizeExpr, t.sizeExpr)
    case _ => false
  }

  /** Never live at the same time. */
  predicate Apart(a: Interval, b: Interval) {
    a.last < b.first || b.last < a.first
  }

  /** Tensor j can join the storage that tensor k opened: it is on this device, not larger, and never live together
      with an earlier tensor of this storage. */
  predicate CanJoin(ts: seq<Tensor>, f: seq<nat>, k: nat, j: nat)
    requires |f| == |ts| && k < j < |ts|
  {
    ts[k].device == ts[j].device && AsLarge(ts[k], ts[j]) &&
    forall m :: 0 <= m < j && f[m] == f[k] ==> Apart(ts[m].interval, ts[j].interval)
  }

  /** Storage i was opened before tensor j came. */
  predicate Opened(f: seq<nat>, i: nat, j: nat)
    requires j <= |f|
  {
    exists k :: 0 <= k < j && Opens(f, k) && f[k] == i
  }

  /** A storage is what its first tensor asked for. */
  lemma {:induction false} OpenerOf(ts: seq<Tensor>, i: nat) returns (k: nat)
    requires DistinctTensors(ts) && i < |Greedy(ts).entries|
    ensures k < |ts| && SlotOf(ts, k) == i && forall m :: 0 <= m < k ==> SlotOf(ts, m) != i
    ensures var e := Greedy(ts).entries[i];
      e.device == ts[k].device && e.size == ts[k].size && e.sizeExpr == ts[k].sizeExpr && e.alignment == 256
    decreases |ts|
  {
    hide Assign, Accepts, Seated, Occupied, PlanOk;
    var init, t := ts[..|ts| - 1], ts[|ts| - 1];
    GreedyOk(init);
    AssignedTo(Greedy(init), init, t);
    forall m | 0 <= m < |init| ensures SlotOf(init, m) == SlotOf(ts, m) { SlotStays(ts, |init|, m); }
    if i < |Greedy(init).entries| {
      k := OpenerOf(init, i);
    } else {
      k := |init|;
      forall m | 0 <= m < k ensures SlotOf(ts, m) != i { SlotIsBelow(init, m); }
    }
  }

  lemma SlotIsBelow(ts: seq<Tensor>, k: nat)
    requires DistinctTensors(ts) && k < |ts|
    ensures SlotOf(ts, k) < |Greedy(ts).entries|
  {
    GreedyOk(ts);
    assert ts[k] in ts && Seated(Greedy(ts), ts[k]);
  }

  /** Later tensors move no earlier one. */
  lemma {:induction false} SlotStays(ts: seq<Tensor>, n: nat, k: nat)
    requires DistinctTensors(ts) && k < n <= |ts|
    ensures SlotOf(ts[..n], k) == SlotOf(ts, k)
    decreases |ts|
  {
    hide Assign, Seated, Occupied, PlanOk;
    if n == |ts| {
      assert ts[..n] == ts;
    } else {
      var init, t := ts[..|ts| - 1], ts[|ts| - 1];
      SlotStays(init, n, k);
      assert init[..n] == ts[..n];
      GreedyOk(init);
      AssignedTo(Greedy(init), init, t);
      assert init[k] == ts[k];
    }
  }

  /** An entry's intervals are those of its tensors. */
  predicate TenantOf(ts: seq<Tensor>, i: nat, iv: Interval)
    requires DistinctTensors(ts)
  {
    exists m :: 0 <= m < |ts| && SlotOf(ts, m) == i && ts[m].interval == iv
  }

  lemma Tenants(ts: seq<Tensor>, i: nat, iv: Interval)
    requires DistinctTensors(ts) && i < |Greedy(ts).entries|
    ensures iv in Greedy(ts).entries[i].intervals <==> TenantOf(ts, i, iv)
  {
    hide Greedy, Fits;
    GreedyOk(ts);
    var p := Greedy(ts);
    assert Occupied(p, ts, i);
    if iv in p.entries[i].intervals {
      var x :| x in ts && x.name in p.slot && p.slot[x.name] == i && x.interval == iv;
      var m :| 0 <= m < |ts| && ts[m] == x;
      assert SlotOf(ts, m) == i;
    }
    if TenantOf(ts, i, iv) {
      var m :| 0 <= m < |ts| && SlotOf(ts, m) == i && ts[m].interval == iv;
      assert ts[m] in ts && Seated(p, ts[m]);
    }
  }

  lemma NoneOverlaps(ts: seq<Tensor>, t: Tensor, i: nat)
    requires DistinctTensors(ts) && i < |Greedy(ts).entries|
    ensures (forall iv <- Greedy(ts).entries[i].intervals :: !Overlap(t.interval, iv)) <==>
      forall m :: 0 <= m < |ts| && SlotOf(ts, m) == i ==> Apart(ts[m].interval, t.interval)
  {
    hide Greedy, SlotOf;
    forall iv ensures iv in Greedy(ts).entries[i].intervals <==> TenantOf(ts, i, iv) { Tenants(ts, i, iv); }
    forall m | 0 <= m < |ts| && SlotOf(ts, m) == i ensures TenantOf(ts, i, ts[m].interval) {}
  }

  /** The planner's question to a storage, asked of the tensors it holds. */
  lemma AcceptsMeans(ts: seq<Tensor>, j: nat, k: nat)
    requires DistinctTensors(ts) && k < j < |ts| && Opens(Slots(ts), k)
    ensures var f, p := Slots(ts), Greedy(ts[..j]);
      f[k] < |p.entries| && (Accepts(p.entries[f[k]], ts[j]) <==> CanJoin(ts, f, k, j))
  {
    hide Greedy, Overlap, Apart;
    var f, init := Slots(ts), ts[..j];
    SlotsStay(ts, j);
    SlotIsBelow(init, k);
    var o := OpenerOf(init, f[k]);
    assert o == k;
    NoneOverlaps(init, ts[j], f[k]);
  }

  lemma SlotsStay(ts: seq<Tensor>, n: nat)
    requires DistinctTensors(ts) && n <= |ts|
    ensures DistinctTensors(ts[..n]) && forall m :: 0 <= m < n ==> SlotOf(ts[..n], m) == Slots(ts)[m]
  {
    hide SlotOf;
    forall m | 0 <= m < n ensures SlotOf(ts[..n], m) == Slots(ts)[m] { SlotStays(ts, n, m); }
  }

  /** The place the planner picks. */
  lemma SlotPicked(ts: seq<Tensor>, j: nat)
    requires DistinctTensors(ts) && j < |ts|
    ensures var p := Greedy(ts[..j]);
      Slots(ts)[j] == if ts[j].reusable then FirstFit(p.entries, ts[j], 0) else |p.entries|
  {
    hide Assign, Accepts, PlanOk, FirstFit;
    var init, next := ts[..j], ts[..j + 1];
    SlotsStay(ts, j);
    SlotsStay(ts, j + 1);
    assert next[..j] == init && next[j] == ts[j];
    GreedyOk(init);
    AssignedTo(Greedy(init), init, ts[j]);
    assert Greedy(next) == Assign(Greedy(init), ts[j]);
    assert SlotOf(next, j) == Slots(ts)[j];
  }

  /** Where a tensor goes, in terms of the tensors before it: a reusable one joins the first storage it can join, and a
      new storage is opened exactly when there is none or it is not reusable.  Storages are numbered in the order they
      are opened. */
  lemma FirstFitExactly(ts: seq<Tensor>, j: nat)
    requires DistinctTensors(ts) && j < |ts|
    ensures var f := Slots(ts);
      (Opens(f, j) <==> !ts[j].reusable || forall k :: 0 <= k < j && Opens(f, k) ==> !CanJoin(ts, f, k, j)) &&
      (forall k :: 0 <= k < j && Opens(f, k) && f[k] == f[j] ==> CanJoin(ts, f, k, j)) &&
      (forall k :: 0 <= k < j && Opens(f, k) && f[k] < f[j] && ts[j].reusable ==> !CanJoin(ts, f, k, j)) &&
      (Opens(f, j) ==> forall k :: 0 <= k < j ==> f[k] < f[j]) && forall i :: 0 <= i < f[j] ==> Opened(f, i, j)
  {
    hide Greedy, Accepts, CanJoin, SlotOf, Slots;
    var f, p := Slots(ts), Greedy(ts[..j]);
    SlotPicked(ts, j);
    SlotsStay(ts, j);
    forall m | 0 <= m < j ensures f[m] < |p.entries| { SlotIsBelow(ts[..j], m); }
    forall i | 0 <= i < |p.entries| ensures Opened(f, i, j) {
      var o := OpenerOf(ts[..j], i);
      assert Opens(f, o) && f[o] == i;
    }
    forall k | 0 <= k < j && Opens(f, k) ensures Accepts(p.entries[f[k]], ts[j]) <==> CanJoin(ts, f, k, j) {
      AcceptsMeans(ts, j, k);
    }
    if f[j] < |p.entries| { assert Opened(f, f[j], j); }
  }

  /** A tensor that lives to the end shares its storage with nothing defined after it, and if it is
      not reusable, with nothing defined before it either. */
  lemma {:induction false} ReturnedIsUnshared(ts: seq<Tensor>, a: Tensor, b: Tensor)
    requires DistinctTensors(ts) && Sorted(ts) && a in ts && b in ts && a != b && !a.reusable
    requires forall t <- ts :: t.interval.first <= t.interval.last && t.interval.first <= a.interval.last
    ensures var p := Greedy(ts); a.name in p.slot && b.name in p.slot && p.slot[a.name] != p.slot[b.name]
  {
    var j :| 0 <= j < |ts| && ts[j] == a;
    var k :| 0 <= k < |ts| && ts[k] == b;
    hide Greedy, Occupied, Seated, DistinctTensors;
    PlanIsSound(ts, a, b);
    if k < j {
      FirstFitExactly(ts, j);
      assert Slots(ts)[k] < Slots(ts)[j];
    } else {
      assert a.interval.first <= b.interval.first;
      assert Overlap(a.interval, b.interval);
    }
  }

  /** The lifetime matters: the planner alone would let a later tensor into a storage that is not
      reusable, once its owner is dead. */
  lemma NotReusableMayBeShared()
    ensures var a := Tensor("a", "cpu", Some(256), IntImm(256), Interval(0, 1), false);
      var b := Tensor("b", "cpu", Some(256), IntImm(256), Interval(2, 3), true);
      var p := Greedy([a, b]);
      "a" in p.slot && "b" in p.slot && p.slot["a"] == p.slot["b"]
  {
    var a := Tensor("a", "cpu", Some(256), IntImm(256), Interval(0, 1), false);
    var b := Tensor("b", "cpu", Some(256), IntImm(256), Interval(2, 3), true);
    assert [a][..0] == [] && [a, b][..1] == [a];
    assert Greedy([a]) == Assign(NOTHING, a);
    assert Accepts(Greedy([a]).entries[0], b);
    assert FirstFit(Greedy([a]).entries, b, 0) == 0;
  }
}

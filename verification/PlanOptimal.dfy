/** On interchangeable tensors the greedy plan uses as few storages as any plan can. */
module PlanOptimal {
  import opened Bytecode
  import opened StoragePlan
  import FiniteSets

  /** All reusable, on one device, of static sizes that never grow in the order of definition. */
  predicate NeverGrowing(ts: seq<Tensor>, device: string) {
    (forall t <- ts :: t.reusable && t.device == device && t.size.Some? && t.interval.first <= t.interval.last) &&
    forall j, k :: 0 <= j < k < |ts| ==> SizeAt(ts, k) <= SizeAt(ts, j)
  }

  function SizeAt(ts: seq<Tensor>, k: nat): int
    requires k < |ts|
  {
    if ts[k].size.Some? then ts[k].size.value else 0
  }

  predicate LiveAt(t: Tensor, point: int) {
    t.interval.first <= point <= t.interval.last
  }

  // ---------------------------------------------------------------- counting

  /** Which tensors are live at a point. */
  function LiveSet(ts: seq<Tensor>, point: int): set<nat> {
    set k: nat | k < |ts| && LiveAt(ts[k], point)
  }

  /** Storage numbers an assignment uses. */
  function Used(f: seq<nat>): set<nat> {
    set s <- f
  }

  /** An assignment of storages that never lets two live tensors collide. */
  predicate Assignment(ts: seq<Tensor>, f: seq<nat>) {
    |f| == |ts| && forall j, k :: 0 <= j < k < |ts| && f[j] == f[k] ==> !Overlap(ts[j].interval, ts[k].interval)
  }

  lemma {:induction false} BelowSize(s: set<nat>, n: nat)
    requires forall x <- s :: x < n
    ensures |s| <= n
    decreases n
  {
    if n == 0 {
      assert s == {};
    } else {
      BelowSize(s - {n - 1}, n - 1);
      if n - 1 in s { assert |s| == |s - {n - 1}| + 1; } else { assert s - {n - 1} == s; }
    }
  }

  /** Mapping a set without collisions does not shrink it. */
  lemma {:induction false} Injective(s: set<nat>, f: seq<nat>)
    requires (forall x <- s :: x < |f|) && forall x, y :: x in s && y in s && f[x] == f[y] ==> x == y
    ensures |set x <- s :: f[x]| == |s|
    decreases |s|
  {
    if s != {} {
      var x :| x in s;
      Injective(s - {x}, f);
      var image := set y <- s - {x} :: f[y];
      assert f[x] !in image;
      assert (set y <- s :: f[y]) == image + {f[x]};
    }
  }

  /** Live at the same time, so in different storages: at no point are more tensors live than an
      assignment has storages. */
  lemma LiveNeedStorages(ts: seq<Tensor>, f: seq<nat>, point: int)
    requires Assignment(ts, f)
    ensures |LiveSet(ts, point)| <= |Used(f)|
  {
    var live := LiveSet(ts, point);
    forall x, y | x in live && y in live && f[x] == f[y] ensures x == y {
      if x < y { assert Overlap(ts[x].interval, ts[y].interval); }
      if y < x { assert Overlap(ts[y].interval, ts[x].interval); }
    }
    Injective(live, f);
    var image := set x <- live :: f[x];
    assert image <= Used(f);
    FiniteSets.SubsetSize(image, Used(f));
  }

  lemma {:induction false} SlotsAssign(ts: seq<Tensor>)
    requires DistinctTensors(ts)
    ensures Assignment(ts, Slots(ts)) && |Used(Slots(ts))| <= |Greedy(ts).entries|
  {
    GreedyOk(ts);
    forall s | s in Used(Slots(ts)) ensures s < |Greedy(ts).entries| {
      var k :| 0 <= k < |ts| && Slots(ts)[k] == s;
      assert ts[k] in ts && Seated(Greedy(ts), ts[k]);
    }
    BelowSize(Used(Slots(ts)), |Greedy(ts).entries|);
  }

  /** One of the tensors is in storage i. */
  predicate Holds(s: set<nat>, f: seq<nat>, i: nat)
    requires forall x <- s :: x < |f|
  {
    exists x :: x in s && f[x] == i
  }

  /** When a storage is opened, each earlier one holds a tensor that is live. */
  lemma AllTaken(ts: seq<Tensor>, device: string, j: nat, i: nat)
    requires DistinctTensors(ts) && Sorted(ts) && NeverGrowing(ts, device)
    requires j < |ts| && Opens(Slots(ts), j) && i < Slots(ts)[j]
    ensures Holds(LiveSet(ts, ts[j].interval.first), Slots(ts), i)
  {
    hide Slots;
    var f := Slots(ts);
    FirstFitExactly(ts, j);
    assert Opened(f, i, j);
    var k :| 0 <= k < j && Opens(f, k) && f[k] == i;
    assert ts[k] in ts && ts[j] in ts && SizeAt(ts, j) <= SizeAt(ts, k);
    assert AsLarge(ts[k], ts[j]);
    var m :| 0 <= m < j && f[m] == f[k] && !Apart(ts[m].interval, ts[j].interval);
    assert m in LiveSet(ts, ts[j].interval.first);
  }

  /** Planning tensors that never grow is optimal: first fit opens exactly as many storages as tensors are live at the
      busiest point, and no collision-free assignment uses fewer. */
  lemma GreedyIsOptimal(ts: seq<Tensor>, device: string) returns (busiest: int)
    requires DistinctTensors(ts) && Sorted(ts) && NeverGrowing(ts, device)
    ensures |LiveSet(ts, busiest)| == |Greedy(ts).entries|
    ensures forall point :: |LiveSet(ts, point)| <= |Greedy(ts).entries|
    ensures forall f :: Assignment(ts, f) ==> |Greedy(ts).entries| <= |Used(f)|
  {
    hide Greedy, Slots, Assignment, Opens, NeverGrowing;
    var n := |Greedy(ts).entries|;
    SlotsAssign(ts);
    forall point ensures |LiveSet(ts, point)| <= n { LiveNeedStorages(ts, Slots(ts), point); }
    busiest := Busiest(ts, device);
    forall f | Assignment(ts, f) ensures n <= |Used(f)| { LiveNeedStorages(ts, f, busiest); }
  }

  /** Where the last storage is opened, all are taken. */
  lemma Busiest(ts: seq<Tensor>, device: string) returns (point: int)
    requires DistinctTensors(ts) && Sorted(ts) && NeverGrowing(ts, device)
    ensures |Greedy(ts).entries| <= |LiveSet(ts, point)|
  {
    hide Greedy, SlotOf;
    var f, n := Slots(ts), |Greedy(ts).entries|;
    point := 0;
    if n > 0 {
      var j := OpenerOf(ts, n - 1);
      assert f[j] == n - 1 && Opens(f, j);
      point := ts[j].interval.first;
      assert ts[j] in ts;
      forall i: nat | i < n ensures Holds(LiveSet(ts, point), f, i) {
        if i < n - 1 { AllTaken(ts, device, j, i); } else { assert j in LiveSet(ts, point); }
      }
      ImageSize(LiveSet(ts, point), f, n);
    }
  }

  /** A set that maps onto the first n numbers has n elements. */
  lemma {:induction false} ImageSize(s: set<nat>, f: seq<nat>, n: nat)
    requires (forall x <- s :: x < |f|) && forall i: nat :: i < n ==> Holds(s, f, i)
    ensures n <= |s|
    decreases n
  {
    if n > 0 {
      assert Holds(s, f, n - 1);
      var x :| x in s && f[x] == n - 1;
      forall i: nat | i < n - 1 ensures Holds(s - {x}, f, i) {
        assert Holds(s, f, i);
        var y :| y in s && f[y] == i;
        assert y in s - {x};
      }
      ImageSize(s - {x}, f, n - 1);
    }
  }
}

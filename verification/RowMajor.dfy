/** Row-major positions (python/devproc2/nn/builder.py). */
module RowMajor {
  import opened Runtime

  type Index = seq<int>

  /** Elements between two neighbours along an axis. */
  function Stride(shape: seq<int>, axis: nat): int
    requires axis < |shape|
  {
    Product(shape[axis + 1..])
  }

  /** The position of an element, counted in elements from the first one. */
  function Flat(shape: seq<int>, idx: Index): int
    requires |idx| == |shape|
  {
    if shape == [] then 0 else idx[0] * Product(shape[1..]) + Flat(shape[1..], idx[1..])
  }

  /** The same as a sum over the first n axes. */
  function FlatTo(shape: seq<int>, idx: Index, n: nat): int
    requires |idx| == |shape| && n <= |shape|
  {
    if n == 0 then 0 else FlatTo(shape, idx, n - 1) + idx[n - 1] * Stride(shape, n - 1)
  }

  lemma {:induction false} FlatIsSum(shape: seq<int>, idx: Index, n: nat)
    requires |idx| == |shape| && n <= |shape|
    ensures Flat(shape, idx) == FlatTo(shape, idx, n) + Flat(shape[n..], idx[n..])
    decreases n
  {
    if n == 0 {
      assert shape[0..] == shape && idx[0..] == idx;
    } else {
      FlatIsSum(shape, idx, n - 1);
      assert shape[n - 1..][1..] == shape[n..] && idx[n - 1..][1..] == idx[n..];
    }
  }

  predicate InBox(idx: Index, sizes: seq<int>) {
    |idx| == |sizes| && forall k :: 0 <= k < |idx| ==> 0 <= idx[k] < sizes[k]
  }

  /** The part of a tensor that starts at `starts` and has these sizes is inside it, and not empty. */
  predicate InRange(shape: seq<int>, starts: Index, sizes: seq<int>) {
    |shape| == |starts| == |sizes| &&
    forall k :: 0 <= k < |shape| ==> 0 <= starts[k] && 1 <= sizes[k] && starts[k] + sizes[k] <= shape[k]
  }

  function Plus(a: Index, b: Index): (c: Index)
    requires |a| == |b|
    ensures |c| == |a| && forall k :: 0 <= k < |a| ==> c[k] == a[k] + b[k]
  {
    seq(|a|, k requires 0 <= k < |a| => a[k] + b[k])
  }

  lemma Distribute(a: int, b: int, c: int)
    ensures (a + b) * c == a * c + b * c
  {
  }

  /** Moving in two steps. */
  lemma Combine(item: int, a: int, b: int, start: int)
    ensures start + item * a + item * b == start + item * (a + b)
  {
  }

  lemma {:induction false} FlatPlus(shape: seq<int>, a: Index, b: Index)
    requires |a| == |shape| == |b|
    ensures Flat(shape, Plus(a, b)) == Flat(shape, a) + Flat(shape, b)
  {
    if shape != [] {
      FlatPlus(shape[1..], a[1..], b[1..]);
      assert Plus(a, b)[1..] == Plus(a[1..], b[1..]);
      Distribute(a[0], b[0], Product(shape[1..]));
    }
  }

  lemma MulLe(a: int, b: int, c: int)
    requires a <= b && 0 <= c
    ensures a * c <= b * c
  {
  }

  lemma {:induction false} ProductPositive(shape: seq<int>)
    requires forall k :: 0 <= k < |shape| ==> 1 <= shape[k]
    ensures Product(shape) >= 1
  {
    if shape != [] {
      ProductPositive(shape[1..]);
      MulLe(1, shape[0], Product(shape[1..]));
    }
  }

  /** A part that is in range ends before the tensor does. */
  lemma {:induction false} PartFits(shape: seq<int>, starts: Index, sizes: seq<int>)
    requires InRange(shape, starts, sizes)
    ensures 0 <= Flat(shape, starts) && 1 <= Product(sizes) && Flat(shape, starts) + Product(sizes) <= Product(shape)
  {
    if shape != [] {
      PartFits(shape[1..], starts[1..], sizes[1..]);
      var s, z, n := starts[0], sizes[0], shape[0];
      var R, Z, F := Product(shape[1..]), Product(sizes[1..]), Flat(shape[1..], starts[1..]);
      PartStep(s, z, n, R, Z, F);
    }
  }

  lemma PartStep(s: int, z: int, n: int, R: int, Z: int, F: int)
    requires 0 <= s && 1 <= z && s + z <= n && 1 <= Z && 0 <= F && F + Z <= R
    ensures 0 <= s * R + F && 1 <= z * Z && s * R + F + z * Z <= n * R
  {
    MulLe(0, s, R);
    MulLe(1, z, Z);
    assert F + z * Z <= z * R by {
      MulLe(0, z - 1, R - Z);
      Distribute(z - 1, 1, Z);
      Distribute(z - 1, 1, R);
      assert (z - 1) * (R - Z) == (z - 1) * R - (z - 1) * Z;
    }
    Distribute(s, z, R);
    MulLe(s + z, n, R);
  }

  lemma {:induction false} EmptyProduct(sizes: seq<int>, k: nat)
    requires k < |sizes| && sizes[k] == 0
    ensures Product(sizes) == 0
  {
    if k > 0 { EmptyProduct(sizes[1..], k - 1); }
  }

  lemma {:induction false} StrideFits(shape: seq<int>, axis: nat)
    requires axis < |shape| && forall k :: 0 <= k < |shape| ==> 1 <= shape[k]
    ensures 0 <= Stride(shape, axis) && shape[axis] * Stride(shape, axis) <= Product(shape)
  {
    if axis == 0 {
      ProductPositive(shape[1..]);
    } else {
      StrideFits(shape[1..], axis - 1);
      assert shape[1..][axis..] == shape[axis + 1..];
      ProductPositive(shape[1..]);
      MulLe(1, shape[0], Product(shape[1..]));
    }
  }

  /** A stretch along one axis, possibly empty, ends before the tensor does. */
  lemma SectionFits(shape: seq<int>, axis: nat, start: int, size: int)
    requires axis < |shape| && (forall k :: 0 <= k < |shape| ==> 1 <= shape[k])
    requires 0 <= start && 0 <= size && start + size <= shape[axis]
    ensures var s, z := Origin(|shape|)[axis := start], shape[axis := size];
      0 <= Flat(shape, s) && 0 <= Product(z) && Flat(shape, s) + Product(z) <= Product(shape)
  {
    var s, z := Origin(|shape|)[axis := start], shape[axis := size];
    if size > 0 {
      PartFits(shape, s, z);
    } else {
      EmptyProduct(z, axis);
      FlatSingle(shape, axis, start);
      StrideFits(shape, axis);
      MulLe(0, start, Stride(shape, axis));
      MulLe(start, shape[axis], Stride(shape, axis));
    }
  }

  /** Of every axis after one of which more than one position is taken, all positions are. */
  predicate Whole(shape: seq<int>, sizes: seq<int>) {
    |shape| == |sizes| && forall k, l :: 0 <= k < l < |shape| && sizes[k] > 1 ==> sizes[l] == shape[l]
  }

  /** Positions inside the part are counted as in the whole tensor. */
  ghost predicate Contiguous(shape: seq<int>, sizes: seq<int>)
    requires |shape| == |sizes|
  {
    forall j: Index :: InBox(j, sizes) ==> Flat(sizes, j) == Flat(shape, j)
  }

  lemma {:induction false} WholeIsContiguous(shape: seq<int>, sizes: seq<int>, j: Index)
    requires Whole(shape, sizes) && InBox(j, sizes)
    ensures Flat(sizes, j) == Flat(shape, j)
  {
    if shape != [] {
      assert InBox(j[1..], sizes[1..]);
      assert Whole(shape[1..], sizes[1..]) by {
        forall k, l | 0 <= k < l < |shape[1..]| && sizes[1..][k] > 1 ensures sizes[1..][l] == shape[1..][l] {
          assert sizes[k + 1] > 1 && sizes[l + 1] == shape[l + 1];
        }
      }
      WholeIsContiguous(shape[1..], sizes[1..], j[1..]);
      if sizes[0] > 1 {
        assert sizes[1..] == shape[1..]
          by { forall k | 0 <= k < |shape[1..]|
              ensures sizes[1..][k] == shape[1..][k] { assert sizes[k + 1] == shape[k + 1]; } }
      } else {
        assert j[0] == 0;
      }
    }
  }

  function Origin(n: nat): (z: Index)
    ensures |z| == n && forall k :: 0 <= k < n ==> z[k] == 0
  {
    seq(n, k => 0)
  }

  lemma {:induction false} FlatZeros(shape: seq<int>)
    ensures Flat(shape, Origin(|shape|)) == 0
  {
    if shape != [] {
      assert Origin(|shape|)[1..] == Origin(|shape| - 1);
      FlatZeros(shape[1..]);
    }
  }

  lemma {:induction false} ProductLess(sizes: seq<int>, shape: seq<int>, l: nat)
    requires |sizes| == |shape| && l < |shape| && sizes[l] < shape[l]
    requires forall k :: 0 <= k < |shape| ==> 1 <= sizes[k] <= shape[k]
    ensures Product(sizes) < Product(shape)
  {
    ProductPositive(sizes[1..]);
    if l == 0 {
      ProductMore(sizes[1..], shape[1..]);
      assert (shape[0] - sizes[0]) * Product(shape[1..]) >= 1 by { MulLe(1, shape[0] - sizes[0], Product(shape[1..])); }
      assert sizes[0] * (Product(shape[1..]) - Product(sizes[1..])) >= 0
        by { MulLe(0, sizes[0], Product(shape[1..]) - Product(sizes[1..])); }
      assert shape[0] * Product(shape[1..]) - sizes[0] * Product(sizes[1..]) ==
             (shape[0] - sizes[0]) * Product(shape[1..]) + sizes[0] * (Product(shape[1..]) - Product(sizes[1..]));
    } else {
      ProductLess(sizes[1..], shape[1..], l - 1);
      assert (shape[0] - sizes[0]) * Product(shape[1..]) >= 0 by { MulLe(0, shape[0] - sizes[0], Product(shape[1..])); }
      assert sizes[0] * (Product(shape[1..]) - Product(sizes[1..])) >= 1
        by { MulLe(1, sizes[0], Product(shape[1..]) - Product(sizes[1..])); }
      assert shape[0] * Product(shape[1..]) - sizes[0] * Product(sizes[1..]) ==
             (shape[0] - sizes[0]) * Product(shape[1..]) + sizes[0] * (Product(shape[1..]) - Product(sizes[1..]));
    }
  }

  lemma ProductsMore(a: int, b: int, m: int, n: int)
    requires 1 <= a <= b && 1 <= m <= n
    ensures 1 <= a * m <= b * n
  {
    MulLe(1, a, m);
    MulLe(a, b, n);
    MulLe(m, n, a);
  }

  lemma {:induction false} ProductMore(sizes: seq<int>, shape: seq<int>)
    requires |sizes| == |shape| && forall k :: 0 <= k < |shape| ==> 1 <= sizes[k] <= shape[k]
    ensures 1 <= Product(sizes) <= Product(shape)
  {
    if shape != [] {
      ProductMore(sizes[1..], shape[1..]);
      ProductsMore(sizes[0], shape[0], Product(sizes[1..]), Product(shape[1..]));
    }
  }

  /** The second element along the k-th axis. */
  lemma {:induction false} Second(shape: seq<int>, k: nat)
    requires k < |shape|
    ensures Flat(shape, Origin(|shape|)[k := 1]) == Product(shape[k + 1..])
  {
    var j := Origin(|shape|)[k := 1];
    if k == 0 {
      assert j[1..] == Origin(|shape| - 1);
      FlatZeros(shape[1..]);
    } else {
      assert j[1..] == Origin(|shape| - 1)[k - 1 := 1];
      Second(shape[1..], k - 1);
      assert shape[1..][k..] == shape[k + 1..];
    }
  }

  /** A part of a row-major tensor is itself row-major exactly when it takes later axes whole. */
  lemma ContiguousIffWhole(shape: seq<int>, sizes: seq<int>)
    requires |shape| == |sizes| && forall k :: 0 <= k < |shape| ==> 1 <= sizes[k] <= shape[k]
    ensures Contiguous(shape, sizes) <==> Whole(shape, sizes)
  {
    if Whole(shape, sizes) {
      forall j: Index | InBox(j, sizes) ensures Flat(sizes, j) == Flat(shape, j) { WholeIsContiguous(shape, sizes, j); }
    } else {
      var k, l :| 0 <= k < l < |shape| && sizes[k] > 1 && sizes[l] != shape[l];
      var j := Origin(|shape|)[k := 1];
      Second(shape, k);
      Second(sizes, k);
      ProductLess(sizes[k + 1..], shape[k + 1..], l - k - 1);
      assert InBox(j, sizes) && Flat(sizes, j) != Flat(shape, j);
    }
  }

  // ---------------------------------------------------------------- leaving out an axis

  function Without(xs: seq<int>, axis: nat): (r: seq<int>)
    requires axis < |xs|
    ensures |r| == |xs| - 1
  {
    xs[..axis] + xs[axis + 1..]
  }

  function With(idx: Index, axis: nat, i: int): (r: Index)
    requires axis <= |idx|
    ensures |r| == |idx| + 1 && r[axis] == i
  {
    idx[..axis] + [i] + idx[axis..]
  }

  lemma {:induction false} WithoutIsOne(shape: seq<int>, axis: nat, j: Index)
    requires axis < |shape| && |j| == |shape| - 1
    ensures Product(Without(shape, axis)) == Product(shape[axis := 1])
    ensures Flat(Without(shape, axis), j) == Flat(shape[axis := 1], With(j, axis, 0))
    decreases axis
  {
    if axis == 0 {
      assert Without(shape, 0) == shape[1..] && shape[0 := 1][1..] == shape[1..] && With(j, 0, 0)[1..] == j;
    } else {
      assert Without(shape, axis)[1..] == Without(shape[1..], axis - 1);
      assert shape[axis := 1][1..] == shape[1..][axis - 1 := 1];
      assert With(j, axis, 0)[1..] == With(j[1..], axis - 1, 0);
      WithoutIsOne(shape[1..], axis - 1, j[1..]);
    }
  }

  /** Fixing the position along one axis moves every element by that many strides. */
  lemma {:induction false} WithIndex(shape: seq<int>, axis: nat, j: Index, i: int)
    requires axis < |shape| && |j| == |shape| - 1
    ensures Flat(shape, With(j, axis, i)) == Flat(shape, With(j, axis, 0)) + i * Stride(shape, axis)
  {
    var at := Origin(|shape|)[axis := i];
    assert With(j, axis, i) == Plus(With(j, axis, 0), at);
    FlatPlus(shape, With(j, axis, 0), at);
    FlatSingle(shape, axis, i);
  }

  lemma {:induction false} FlatSingle(shape: seq<int>, axis: nat, i: int)
    requires axis < |shape|
    ensures Flat(shape, Origin(|shape|)[axis := i]) == i * Stride(shape, axis)
    decreases axis
  {
    var at := Origin(|shape|)[axis := i];
    if axis == 0 {
      assert at[1..] == Origin(|shape| - 1);
      FlatZeros(shape[1..]);
    } else {
      assert at[1..] == Origin(|shape| - 1)[axis - 1 := i];
      FlatSingle(shape[1..], axis - 1, i);
      assert shape[1..][axis..] == shape[axis + 1..];
    }
  }

  /** Without an axis: counted as in the whole tensor, apart from the fixed position. */
  ghost predicate SelectContiguous(shape: seq<int>, axis: nat)
    requires axis < |shape|
  {
    forall j: Index, i: int :: InBox(j, Without(shape, axis)) && 0 <= i < shape[axis] ==>
      i * Stride(shape, axis) + Flat(Without(shape, axis), j) == Flat(shape, With(j, axis, i))
  }

  predicate OuterAxesAreOne(shape: seq<int>, axis: nat)
    requires axis < |shape|
  {
    shape[axis] == 1 || forall k :: 0 <= k < axis ==> shape[k] == 1
  }

  /** Selecting along an axis keeps the rest in row-major order exactly when the axes before it have
      one position each, or it has. */
  lemma SelectIffOuterOne(shape: seq<int>, axis: nat)
    requires axis < |shape| && forall k :: 0 <= k < |shape| ==> 1 <= shape[k]
    ensures SelectContiguous(shape, axis) <==> OuterAxesAreOne(shape, axis)
  {
    var sizes := shape[axis := 1];
    ContiguousIffWhole(shape, sizes);
    assert Whole(shape, sizes) <==> OuterAxesAreOne(shape, axis) by {
      if !OuterAxesAreOne(shape, axis) {
        var k :| 0 <= k < axis && shape[k] != 1;
        assert sizes[k] > 1 && sizes[axis] != shape[axis];
      }
    }
    if Contiguous(shape, sizes) {
      forall j: Index, i: int | InBox(j, Without(shape, axis)) && 0 <= i < shape[axis]
        ensures i * Stride(shape, axis) + Flat(Without(shape, axis), j) == Flat(shape, With(j, axis, i))
      {
        WithoutIsOne(shape, axis, j);
        WithIndex(shape, axis, j, i);
        assert InBox(With(j, axis, 0), sizes) by { WithInBox(shape, axis, j); }
      }
    }
    if SelectContiguous(shape, axis) {
      forall j: Index | InBox(j, sizes) ensures Flat(sizes, j) == Flat(shape, j) {
        var j' := Without(j, axis);
        assert With(j', axis, 0) == j by { assert j[axis] == 0; }
        assert InBox(j', Without(shape, axis)) by { WithoutInBox(shape, axis, j); }
        WithoutIsOne(shape, axis, j');
        assert 0 * Stride(shape, axis) + Flat(Without(shape, axis), j') == Flat(shape, With(j', axis, 0));
      }
    }
  }

  lemma WithInBox(shape: seq<int>, axis: nat, j: Index)
    requires axis < |shape| && InBox(j, Without(shape, axis))
    ensures InBox(With(j, axis, 0), shape[axis := 1])
  {
    var w, sizes := With(j, axis, 0), shape[axis := 1];
    forall k | 0 <= k < |w| ensures 0 <= w[k] < sizes[k] {
      if k < axis {
        assert w[k] == j[k] && Without(shape, axis)[k] == shape[k];
      } else if k > axis {
        assert w[k] == j[k - 1] && Without(shape, axis)[k - 1] == shape[k];
      }
    }
  }

  lemma WithoutInBox(shape: seq<int>, axis: nat, j: Index)
    requires axis < |shape| && InBox(j, shape[axis := 1])
    ensures InBox(Without(j, axis), Without(shape, axis))
  {
    var w, v := Without(j, axis), Without(shape, axis);
    forall k | 0 <= k < |w| ensures 0 <= w[k] < v[k] {
      if k < axis {
        assert w[k] == j[k] && v[k] == shape[k];
      } else {
        assert w[k] == j[k + 1] && v[k] == shape[k + 1];
      }
    }
  }

  // ---------------------------------------------------------------- splitting the first axis

  function Sum(xs: seq<int>, n: nat): int
    requires n <= |xs|
  {
    if n == 0 then 0 else Sum(xs, n - 1) + xs[n - 1]
  }

  /** Position i of the first axis is in section k. */
  predicate InSection(sections: seq<int>, k: nat, i: int) {
    k < |sections| && Sum(sections, k) <= i < Sum(sections, k + 1)
  }

  lemma {:induction false} SumGrows(xs: seq<int>, m: nat, n: nat)
    requires m <= n <= |xs| && forall k :: 0 <= k < |xs| ==> 0 <= xs[k]
    ensures Sum(xs, m) <= Sum(xs, n)
    decreases n
  {
    if m < n { SumGrows(xs, m, n - 1); }
  }

  /** Sections that add up to the axis divide it: every position is in exactly one. */
  lemma {:induction false} SectionsPartition(sections: seq<int>, i: int) returns (k: nat)
    requires (forall j :: 0 <= j < |sections| ==> 0 <= sections[j]) && 0 <= i < Sum(sections, |sections|)
    ensures InSection(sections, k, i) && forall j: nat :: InSection(sections, j, i) ==> j == k
  {
    k := 0;
    while Sum(sections, k + 1) <= i
      invariant k < |sections| && Sum(sections, k) <= i
      decreases |sections| - k
    {
      if k + 1 == |sections| { assert false; }
      k := k + 1;
    }
    forall j: nat | InSection(sections, j, i) ensures j == k {
      if j < k { SumGrows(sections, j + 1, k); }
      if k < j { SumGrows(sections, k + 1, j); }
    }
  }
}

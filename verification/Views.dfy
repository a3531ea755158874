/** Tensor views made while a model is traced (python/devproc2/nn/builder.py) and what they denote
    when the program runs (runtime/src/tensor.cc). */
module Views {
  import opened Bytecode
  import opened Runtime
  import opened PrimExprs
  import opened IRValues
  import opened TensorIR
  import opened TensorSemantics
  import opened RowMajor

  // ---------------------------------------------------------------- static parts

  /** Dimensions behind an axis have to be constants. */
  function StaticStride(shape: seq<PrimExpr>, axis: nat): Option<int>
    requires axis < |shape|
  {
    StaticProduct(shape[axis + 1..])
  }

  function StaticProduct(dims: seq<PrimExpr>): Option<int> {
    if dims == [] then Some(1)
    else
      match StaticProduct(dims[..|dims| - 1])
      case None => None
      case Some(n) => if dims[|dims| - 1].IntImm? then Some(n * dims[|dims| - 1].value) else None
  }

  /** Starts given as numbers, or as integer constants. */
  function StaticStart(v: Value): Option<int> {
    match v
    case Imm(Int(i)) => Some(i)
    case Imm(Bool(b)) => Some(if b then 1 else 0)
    case _ => None
  }

  function ItemSize(dtype: DType): int {
    dtype.bits / 8
  }

  /** The accumulated offset: a constant, and at most one dynamic start with its stride in bytes. */
  datatype Offset = Offset(bytes: int, dynamic: Option<Value>, stride: int)

  function OffsetTo(info: Spec, starts: seq<Value>, n: nat): Option<Offset>
    requires |starts| == |info.shape| && n <= |starts|
  {
    if n == 0 then Some(Offset(0, None, 1))
    else
      match (OffsetTo(info, starts, n - 1), StaticStride(info.shape, n - 1))
      case (Some(o), Some(elems)) =>
        var step := elems * ItemSize(info.dtype);
        (match StaticStart(starts[n - 1])
         case Some(i) => Some(o.(bytes := o.bytes + i * step))
         case None => if o.dynamic.Some? then None else Some(o.(dynamic := Some(starts[n - 1]), stride := step)))
      case _ => None
  }

  /** The view op for a slice; None when the builder raises. */
  function SliceOp(res: nat, base: Value, info: Spec, starts: seq<Value>, sizes: seq<PrimExpr>): Option<Op> {
    if |starts| != |info.shape| || |sizes| != |info.shape| then None
    else
      match OffsetTo(info, starts, |starts|)
      case None => None
      case Some(o) =>
        Some(ViewOp(res, base, if o.dynamic.Some? then o.dynamic.value else Imm(Int(0)), sizes, o.stride, o.bytes))
  }

  function NormalizeDim(dim: int, rank: nat): Option<nat> {
    var d := if dim < 0 then dim + rank else dim;
    if 0 <= d < rank then Some(d) else None
  }

  /** Axes count from the front, or from the back, the last one being -1; anything else is refused. */
  lemma AxisExactly(dim: int, rank: nat, axis: nat)
    ensures NormalizeDim(dim, rank) == Some(axis) <==> axis < rank && (dim == axis || dim == axis - rank)
  {
  }

  function Dropped(shape: seq<PrimExpr>, axis: nat): seq<PrimExpr>
    requires axis < |shape|
  {
    shape[..axis] + shape[axis + 1..]
  }

  function SelectOp(res: nat, base: Value, info: Spec, axis: int, index: Value): Option<Op> {
    match NormalizeDim(axis, |info.shape|)
    case None => None
    case Some(a) =>
      match StaticStride(info.shape, a)
      case None => None
      case Some(elems) => Some(ViewOp(res, base, index, Dropped(info.shape, a), elems * ItemSize(info.dtype), 0))
  }

  /** The starts and sizes of one section. */
  function SectionStarts(rank: nat, axis: nat, start: int): (r: seq<Value>)
    ensures |r| == rank && forall k :: 0 <= k < rank ==> r[k] == Imm(Int(if k == axis then start else 0))
  {
    seq(rank, k => Imm(Int(if k == axis then start else 0)))
  }

  function SectionSizes(shape: seq<PrimExpr>, axis: nat, section: int): (r: seq<PrimExpr>)
    ensures |r| == |shape| && forall k :: 0 <= k < |shape| ==> r[k] == if k == axis then IntImm(section) else shape[k]
  {
    seq(|shape|, k requires 0 <= k < |shape| => if k == axis then IntImm(section) else shape[k])
  }

  predicate AllStatic(shape: seq<PrimExpr>) {
    forall d <- shape :: d.IntImm?
  }

  function SectionOp(res: nat, base: Value, info: Spec, axis: nat, sections: seq<int>, k: nat): Option<Op>
    requires k < |sections|
  {
    SliceOp(res, base, info, SectionStarts(|info.shape|, axis, Sum(sections, k)),
            SectionSizes(info.shape, axis, sections[k]))
  }

  // ---------------------------------------------------------------- indexing

  /** What stands in the brackets for one axis. */
  datatype Selector = Part(start: Option<int>, stop: Option<int>,
                           step: Option<int>) | At(index: Value) | Ellipsis | NewAxis

  /** The ops so far, the tensor they lead to, and the axis the next selector is for. */
  datatype Cursor = Cursor(ops: seq<Op>, value: Value, info: Spec, axis: nat)

  function Or(x: Option<int>, default: int): int {
    if x.Some? then x.value else default
  }

  /** One selector; None when the builder raises. */
  function Follow(c: Cursor, sel: Selector, next: nat): Option<Cursor> {
    if c.axis >= |c.info.shape| then None
    else
      match sel
      case Ellipsis => None
      case NewAxis => None
      case Part(start, stop, step) =>
        if step != None && step != Some(1) then None
        else if !AllStatic(c.info.shape) then None
        else
          var dim := c.info.shape[c.axis];
          var from := Or(start, 0);
          var size := Or(stop, if dim.IntImm? then dim.value else 0) - from;
          var sizes := SectionSizes(c.info.shape, c.axis, size);
          (match SliceOp(next, c.value, c.info, SectionStarts(|c.info.shape|, c.axis, from), sizes)
           case Some(op) => Some(Cursor(c.ops + [op], Res(next), c.info.(shape := sizes), c.axis + 1))
           case None => None)
      case At(index) =>
        match SelectOp(next, c.value, c.info, c.axis, index)
        case Some(op) => Some(Cursor(c.ops + [op], Res(next), c.info.(shape := Dropped(c.info.shape, c.axis)), c.axis))
        case None => None
  }

  /** The first n selectors. */
  function FollowTo(base: Value, info: Spec, selectors: seq<Selector>, n: nat, next: nat): (r: Option<Cursor>)
    requires n <= |selectors|
    ensures r.Some? ==> |r.value.ops| == n
  {
    if n == 0 then Some(Cursor([], base, info, 0))
    else
      match FollowTo(base, info, selectors, n - 1, next)
      case Some(c) => Follow(c, selectors[n - 1], next + (n - 1))
      case None => None
  }

  lemma {:induction false} FollowFails(base: Value, info: Spec, selectors: seq<Selector>, m: nat, n: nat, next: nat)
    requires m <= n <= |selectors| && FollowTo(base, info, selectors, m, next) == None
    ensures FollowTo(base, info, selectors, n, next) == None
    decreases n
  {
    hide Follow;
    if m < n { FollowFails(base, info, selectors, m, n - 1, next); }
  }

  /** Selector k is the first that is refused. */
  predicate StopsAt(base: Value, info: Spec, selectors: seq<Selector>, k: nat, next: nat) {
    k < |selectors| && FollowTo(base, info, selectors, k, next).Some? &&
      FollowTo(base, info, selectors, k + 1, next).None?
  }

  ghost predicate StopsWith(base: Value, info: Spec, selectors: seq<Selector>, next: nat, before: seq<Op>,
                            after: seq<Op>) {
    exists k :: StopsAt(base, info, selectors, k, next) &&
      after == before + FollowTo(base, info, selectors, k, next).value.ops
  }

  lemma FollowAdds(c: Cursor, sel: Selector, next: nat)
    requires Follow(c, sel, next).Some?
    ensures var ops := Follow(c, sel, next).value.ops; |ops| == |c.ops| + 1 && ops == c.ops + [ops[|ops| - 1]]
  {
    hide SliceOp, SelectOp, AllStatic, SectionStarts, SectionSizes;
  }

  // ---------------------------------------------------------------- the builder

  /** Appends view ops while a model is traced. */
  class Builder {
    var ops: seq<Op>
    var next: nat

    constructor (next: nat)
      ensures ops == [] && this.next == next
    {
      ops := [];
      this.next := next;
    }

    method StrideElems(shape: seq<PrimExpr>, axis: nat) returns (r: Option<int>)
      requires axis < |shape|
      ensures r == StaticStride(shape, axis)
    {
      var dims := shape[axis + 1..];
      var stride := 1;
      for k := 0 to |dims|
        invariant StaticProduct(dims[..k]) == Some(stride)
      {
        assert dims[..k + 1][..k] == dims[..k];
        if !dims[k].IntImm? {
          NotStatic(dims, k);
          return None;
        }
        stride := stride * dims[k].value;
      }
      assert dims[..|dims|] == dims;
      r := Some(stride);
    }

    method Append(op: Op)
      modifies this
      ensures ops == old(ops) + [op] && next == old(next) + 1
    {
      ops := ops + [op];
      next := next + 1;
    }

    /** emit_tensor_slice with the only stride it allows. */
    method EmitSlice(base: Value, info: Spec, starts: seq<Value>, sizes: seq<PrimExpr>) returns (r: Option<Value>)
      modifies this
      ensures match SliceOp(old(next), base, info, starts, sizes)
        case Some(op) => r == Some(Res(old(next))) && ops == old(ops) + [op] && next == old(next) + 1
        case None => r == None && ops == old(ops) && next == old(next)
    {
      if |starts| != |info.shape| || |sizes| != |info.shape| { return None; }
      var bytes, stride := 0, 1;
      var dynamic: Option<Value> := None;
      for axis := 0 to |starts|
        invariant OffsetTo(info, starts, axis) == Some(Offset(bytes, dynamic, stride))
        invariant ops == old(ops) && next == old(next)
      {
        var elems := StrideElems(info.shape, axis);
        if elems.None? {
          OffsetFails(info, starts, axis + 1, |starts|);
          return None;
        }
        var step := elems.value * ItemSize(info.dtype);
        var start := StaticStart(starts[axis]);
        if start.Some? {
          bytes := bytes + start.value * step;
        } else if dynamic.Some? {
          OffsetFails(info, starts, axis + 1, |starts|);
          return None;
        } else {
          dynamic := Some(starts[axis]);
          stride := step;
        }
      }
      r := Some(Res(next));
      Append(ViewOp(next, base, if dynamic.Some? then dynamic.value else Imm(Int(0)), sizes, stride, bytes));
    }

    method EmitSelect(base: Value, info: Spec, axis: int, index: Value) returns (r: Option<Value>)
      modifies this
      ensures match SelectOp(old(next), base, info, axis, index)
        case Some(op) => r == Some(Res(old(next))) && ops == old(ops) + [op] && next == old(next) + 1
        case None => r == None && ops == old(ops) && next == old(next)
    {
      var a := NormalizeDim(axis, |info.shape|);
      if a.None? { return None; }
      var elems := StrideElems(info.shape, a.value);
      if elems.None? { return None; }
      r := Some(Res(next));
      Append(ViewOp(next, base, index, Dropped(info.shape, a.value), elems.value * ItemSize(info.dtype), 0));
    }

    /** One selector of emit_tensor_index. */
    method EmitOne(c: Cursor, sel: Selector) returns (r: Option<Cursor>)
      modifies this
      ensures r == Follow(c, sel, old(next))
      ensures r.None? ==> ops == old(ops) && next == old(next)
      ensures r.Some? ==>
        |r.value.ops| > 0 && ops == old(ops) + [r.value.ops[|r.value.ops| - 1]] && next == old(next) + 1
    {
      hide SliceOp, SelectOp, AllStatic, SectionStarts, SectionSizes;
      if c.axis >= |c.info.shape| || sel.Ellipsis? || sel.NewAxis? { return None; }
      var v: Option<Value>;
      var info: Spec;
      if sel.At? {
        v := EmitSelect(c.value, c.info, c.axis, sel.index);
        info := c.info.(shape := Dropped(c.info.shape, c.axis));
      } else {
        if (sel.step != None && sel.step != Some(1)) || !AllStatic(c.info.shape) { return None; }
        var dim, start := c.info.shape[c.axis], Or(sel.start, 0);
        var sizes := SectionSizes(c.info.shape, c.axis, Or(sel.stop, if dim.IntImm? then dim.value else 0) - start);
        v := EmitSlice(c.value, c.info, SectionStarts(|c.info.shape|, c.axis, start), sizes);
        info := c.info.(shape := sizes);
      }
      if v.None? { return None; }
      r := Some(Cursor(c.ops + [ops[|ops| - 1]], v.value, info, if sel.At? then c.axis else c.axis + 1));
    }

    /** emit_tensor_index: slices and selections one after the other, from the left; what was emitted
        before a selector that is refused stays. */
    method EmitIndex(base: Value, info: Spec, selectors: seq<Selector>) returns (r: Option<Value>)
      modifies this
      ensures match FollowTo(base, info, selectors, |selectors|, old(next))
        case Some(c) => r == Some(c.value) && ops == old(ops) + c.ops && next == old(next) + |selectors|
        case None => r == None && StopsWith(base, info, selectors, old(next), old(ops), ops)
    {
      hide Follow;
      ghost var first := next;
      var c := Cursor([], base, info, 0);
      for k := 0 to |selectors|
        invariant FollowTo(base, info, selectors, k, first) == Some(c) && ops == old(ops) + c.ops && next == first + k
      {
        var f := EmitOne(c, selectors[k]);
        if f.None? {
          FollowFails(base, info, selectors, k + 1, |selectors|, first);
          assert StopsAt(base, info, selectors, k, first);
          return None;
        }
        FollowAdds(c, selectors[k], first + k);
        c := f.value;
      }
      r := Some(c.value);
    }

    /** One slice per section, each starting where the one before it ends. */
    method EmitSplit(base: Value, info: Spec, sections: seq<int>, axis: int) returns (r: Option<seq<Value>>)
      modifies this
      ensures NormalizeDim(axis, |info.shape|).Some? && AllStatic(info.shape) ==>
        r.Some? && |r.value| == |sections| && |ops| == |old(ops)| + |sections| && old(ops) <= ops &&
        forall k :: 0 <= k < |sections| ==>
          r.value[k] == Res(old(next) + k) &&
          SectionOp(old(next) + k, base, info, NormalizeDim(axis, |info.shape|).value, sections,
                    k) == Some(ops[|old(ops)| + k])
      ensures sections != [] && (NormalizeDim(axis, |info.shape|).None? || !AllStatic(info.shape)) ==>
        r.None? && ops == old(ops)
    {
      var a := NormalizeDim(axis, |info.shape|);
      if a.None? { return None; }
      if !AllStatic(info.shape) && sections != [] { return None; }
      var outputs: seq<Value> := [];
      var start := 0;
      for k := 0 to |sections|
        invariant AllStatic(info.shape) || sections == []
        invariant start == Sum(sections, k) && |outputs| == k && next == old(next) + k
        invariant |ops| == |old(ops)| + k && old(ops) <= ops
        invariant forall j :: 0 <= j < k ==>
          outputs[j] == Res(old(next) + j) &&
            SectionOp(old(next) + j, base, info, a.value, sections, j) == Some(ops[|old(ops)| + j])
      {
        var starts, sizes := SectionStarts(|info.shape|, a.value, start),
          SectionSizes(info.shape, a.value, sections[k]);
        StaticOffset(info, starts, |starts|);
        ghost var before := ops;
        var out := EmitSlice(base, info, starts, sizes);
        assert SectionOp(old(next) + k, base, info, a.value, sections, k) == Some(ops[|old(ops)| + k]);
        assert before <= ops;
        outputs := outputs + [out.value];
        start := start + sections[k];
      }
      r := Some(outputs);
    }
  }

  lemma {:induction false} NotStatic(dims: seq<PrimExpr>, k: nat)
    requires k < |dims| && !dims[k].IntImm?
    ensures StaticProduct(dims) == None
    decreases |dims|
  {
    if k < |dims| - 1 { NotStatic(dims[..|dims| - 1], k); }
  }

  lemma {:induction false} OffsetFails(info: Spec, starts: seq<Value>, m: nat, n: nat)
    requires |starts| == |info.shape| && m <= n <= |starts| && OffsetTo(info, starts, m) == None
    ensures OffsetTo(info, starts, n) == None
    decreases n
  {
    if m < n { OffsetFails(info, starts, m, n - 1); }
  }

  lemma {:induction false} AllStaticProduct(dims: seq<PrimExpr>)
    requires AllStatic(dims)
    ensures StaticProduct(dims).Some?
    decreases |dims|
  {
    if dims != [] { AllStaticProduct(dims[..|dims| - 1]); }
  }

  lemma {:induction false} StaticOffset(info: Spec, starts: seq<Value>, n: nat)
    requires |starts| == |info.shape| && n <= |starts| && AllStatic(info.shape)
    requires forall v <- starts :: StaticStart(v).Some?
    ensures OffsetTo(info, starts, n).Some?
    decreases n
  {
    if n > 0 {
      StaticOffset(info, starts, n - 1);
      AllStaticProduct(info.shape[n..]);
    }
  }

  // ---------------------------------------------------------------- what a view denotes

  /** Elements of one or more whole bytes. */
  predicate WholeBytes(dtype: DType) {
    dtype.bits % 8 == 0 && dtype.bits > 0 && dtype.lanes == 1
  }

  /** Constant dimensions are what the tensor has; elements are whole bytes. */
  predicate Describes(info: Spec, t: TensorRef) {
    && |t.shape| == |info.shape| && t.dtype == info.dtype
    && (forall k :: 0 <= k < |info.shape| && info.shape[k].IntImm? ==> t.shape[k] == info.shape[k].value)
    && WholeBytes(t.dtype)
  }

  /** Where an element's bytes begin. */
  function Address(t: TensorRef, idx: Index): int
    requires |idx| == |t.shape|
  {
    t.offset + ItemSize(t.dtype) * Flat(t.shape, idx)
  }

  lemma {:induction false} ProductSnoc(xs: seq<int>)
    requires xs != []
    ensures Product(xs) == Product(xs[..|xs| - 1]) * xs[|xs| - 1]
  {
    if |xs| > 1 {
      ProductSnoc(xs[1..]);
      assert xs[1..][..|xs| - 2] == xs[..|xs| - 1][1..];
    } else {
      assert xs[1..] == [] && xs[..0] == [];
    }
  }

  lemma {:induction false} StaticProductIs(dims: seq<PrimExpr>, xs: seq<int>)
    requires |xs| == |dims| && StaticProduct(dims).Some?
    requires forall k :: 0 <= k < |dims| && dims[k].IntImm? ==> xs[k] == dims[k].value
    ensures StaticProduct(dims).value == Product(xs)
    decreases |dims|
  {
    if dims != [] {
      StaticProductIs(dims[..|dims| - 1], xs[..|xs| - 1]);
      ProductSnoc(xs);
    }
  }

  lemma StaticStrideIs(info: Spec, t: TensorRef, axis: nat)
    requires Describes(info, t) && axis < |info.shape| && StaticStride(info.shape, axis).Some?
    ensures StaticStride(info.shape, axis).value == RowMajor.Stride(t.shape, axis)
  {
    StaticProductIs(info.shape[axis + 1..], t.shape[axis + 1..]);
  }

  /** The value a start has at run time; a truth value counts as zero or one. */
  predicate StartIs(v: Value, E: TEnv, s: int) {
    match v
    case Imm(Int(i)) => s == i
    case Imm(Bool(b)) => s == if b then 1 else 0
    case _ => EvalV(v, E) == Some(TScalar(Int(s)))
  }

  function DynamicBytes(o: Offset, E: TEnv): int {
    match o.dynamic
    case None => 0
    case Some(v) =>
      match EvalV(v, E)
      case Some(TScalar(Int(i))) => i * o.stride
      case _ => 0
  }

  /** Static and dynamic parts together are the row-major offset. */
  lemma {:induction false} OffsetIsRowMajor(info: Spec, starts: seq<Value>, t: TensorRef, E: TEnv, s: Index, n: nat)
    requires Describes(info, t) && |starts| == |info.shape| == |s| && n <= |s| && OffsetTo(info, starts, n).Some?
    requires forall k :: 0 <= k < |s| ==> StartIs(starts[k], E, s[k])
    ensures var o := OffsetTo(info, starts, n).value;
      o.bytes + DynamicBytes(o, E) == ItemSize(t.dtype) * FlatTo(t.shape, s, n) &&
      (o.dynamic.Some? ==> exists k :: 0 <= k < n && o.dynamic == Some(starts[k]) && StaticStart(starts[k]).None?) &&
      (o.dynamic.None? ==> o.stride == 1)
    decreases n
  {
    if n > 0 {
      OffsetIsRowMajor(info, starts, t, E, s, n - 1);
      StaticStrideIs(info, t, n - 1);
      var item, stride, sum := ItemSize(t.dtype), RowMajor.Stride(t.shape, n - 1), FlatTo(t.shape, s, n - 1);
      Scale(item, sum, s[n - 1], stride);
      assert StartIs(starts[n - 1], E, s[n - 1]);
    }
  }

  lemma Scale(item: int, sum: int, s: int, stride: int)
    ensures item * (sum + s * stride) == item * sum + s * (stride * item)
  {
    assert item * (s * stride) == s * (stride * item);
  }

  /** The tensor lies inside its storage. */
  predicate FitsStorage(t: TensorRef) {
    0 <= t.offset && (t.nbytes > 0 ==> t.offset + PayloadBytes(t.shape, t.dtype) <= t.nbytes)
  }

  lemma {:induction false} PayloadIs(dims: seq<int>, dtype: DType)
    requires WholeBytes(dtype) && Product(dims) >= 0
    ensures PayloadBytes(dims, dtype) == ItemSize(dtype) * Product(dims)
  {
    var n := Product(dims) * ItemSize(dtype);
    assert Product(dims) * dtype.bits * dtype.lanes == 8 * n;
    assert (8 * n + 7) / 8 == n;
  }

  lemma {:induction false} DescribedSize(info: Spec, t: TensorRef, dims: seq<int>)
    requires Describes(info, t) && Product(dims) >= 0
    ensures PayloadBytes(dims, t.dtype) == ItemSize(t.dtype) * Product(dims) && ItemSize(t.dtype) > 0
    ensures |t.shape| == |info.shape| && t.dtype == info.dtype
  {
    PayloadIs(dims, t.dtype);
  }

  /** The bytes of a part that starts at this position are inside the storage. */
  predicate PartInStorage(t: TensorRef, s: Index, z: seq<int>)
    requires |s| == |t.shape|
  {
    0 <= Flat(t.shape, s) &&
    (t.nbytes > 0 ==> t.offset + ItemSize(t.dtype) * Flat(t.shape, s) + ItemSize(t.dtype) * Product(z) <= t.nbytes)
  }

  /** Running a slice: it begins at the row-major offset of its starts, and it passes the check
      exactly when that is not negative and the bytes from there on are inside the storage. */
  lemma {:induction false} SliceRunsExactly(C: Context, st: TState, res: nat, base: Value, info: Spec,
                                            starts: seq<Value>, sizes: seq<PrimExpr>, t: TensorRef, s: Index,
                                            z: seq<int>)
    requires SliceOp(res, base, info, starts, sizes).Some? && Describes(info, t)
    requires EvalV(base, st.env) == Some(TTensor(t))
    requires |s| == |starts| && (forall k :: 0 <= k < |s| ==> StartIs(starts[k], st.env, s[k]))
    requires EvalShape(C.host, sizes, C.dims) == Some(z) && Product(z) >= 0 && t.offset >= 0
    ensures |s| == |t.shape|
    ensures var op := SliceOp(res, base, info, starts, sizes).value;
      Exec(C, op, st) ==
      if PartInStorage(t, s, z) then Some(st.(env := st.env[res := TTensor(t.(offset := Address(t, s), shape := z))]))
        else None
  {
    hide EvalShape, Describes, PayloadBytes, ItemSize, Exec, Flat, StaticStride;
    var o := OffsetTo(info, starts, |starts|).value;
    DescribedSize(info, t, z);
    OffsetIsRowMajor(info, starts, t, st.env, s, |starts|);
    FlatIsSum(t.shape, s, |s|);
    var item := ItemSize(t.dtype);
    var op := SliceOp(res, base, info, starts, sizes).value;
    assert EvalV(op.byteOffset, st.env).Some? && EvalV(op.byteOffset, st.env).value.TScalar? &&
      EvalV(op.byteOffset, st.env).value.c.Int?;
    var i := EvalV(op.byteOffset, st.env).value.c.i;
    assert i * op.byteStride + op.baseOffset == item * Flat(t.shape, s) by { NoneOffset(t.shape, s); }
    ViewIs(C, st, op, t, i, z);
    Signs(item, Flat(t.shape, s));
  }

  lemma NoneOffset(shape: seq<int>, s: Index)
    requires |s| == |shape|
    ensures Flat(shape[|s|..], s[|s|..]) == 0
  {
    assert shape[|s|..] == [];
  }

  lemma Signs(a: int, b: int)
    requires a > 0
    ensures a * b < 0 <==> b < 0
  {
    if b < 0 { RowMajor.MulLe(b, -1, a); } else { RowMajor.MulLe(0, b, a); }
  }

  /** A part that ends before the tensor does passes the check. */
  lemma {:induction false} PartPasses(info: Spec, t: TensorRef, s: Index, z: seq<int>)
    requires Describes(info, t) && FitsStorage(t) && |s| == |t.shape|
    requires 0 <= Flat(t.shape, s) && 0 <= Product(z) && Flat(t.shape, s) + Product(z) <= Product(t.shape)
    ensures PartInStorage(t, s, z) && FitsStorage(t.(offset := Address(t, s), shape := z))
  {
    hide Describes, PayloadBytes, ItemSize;
    DescribedSize(info, t, z);
    DescribedSize(info, t, t.shape);
    Grow(ItemSize(t.dtype), Flat(t.shape, s), Product(z), Product(t.shape));
  }

  /** A slice that is in range and not empty passes the check if its base is inside its storage. */
  lemma {:induction false} SliceRuns(C: Context, st: TState, res: nat, base: Value, info: Spec, starts: seq<Value>,
                                     sizes: seq<PrimExpr>, t: TensorRef, s: Index, z: seq<int>)
    requires SliceOp(res, base, info, starts, sizes).Some? && Describes(info, t)
    requires EvalV(base, st.env) == Some(TTensor(t))
    requires |s| == |starts| && (forall k :: 0 <= k < |s| ==> StartIs(starts[k], st.env, s[k]))
    requires EvalShape(C.host, sizes, C.dims) == Some(z) && InRange(t.shape, s, z) && FitsStorage(t)
    ensures var op := SliceOp(res, base, info, starts, sizes).value;
      var v := t.(offset := Address(t, s), shape := z);
      Exec(C, op, st) == Some(st.(env := st.env[res := TTensor(v)])) && FitsStorage(v)
  {
    hide EvalShape, Describes, SliceOp, Exec, StartIs;
    PartFits(t.shape, s, z);
    SliceRunsExactly(C, st, res, base, info, starts, sizes, t, s, z);
    PartPasses(info, t, s, z);
  }

  lemma NumberIs(i: int, E: TEnv)
    ensures StartIs(Imm(Int(i)), E, i)
  {
  }

  lemma {:induction false} SectionIn(sections: seq<int>, k: nat)
    requires k < |sections| && forall j :: 0 <= j < |sections| ==> 0 <= sections[j]
    ensures 0 <= Sum(sections, k) && Sum(sections, k) + sections[k] <= Sum(sections, |sections|)
  {
    SumGrows(sections, 0, k);
    SumGrows(sections, k + 1, |sections|);
  }

  /** So does every section of a split, also an empty one, if no other dimension is empty. */
  lemma {:induction false} SectionRuns(C: Context, st: TState, res: nat, base: Value, info: Spec, axis: nat,
                                       sections: seq<int>, k: nat, t: TensorRef)
    requires k < |sections| && SectionOp(res, base, info, axis, sections, k).Some? && Describes(info, t)
    requires EvalV(base, st.env) == Some(TTensor(t)) && FitsStorage(t) && axis < |t.shape|
    requires (forall j :: 0 <= j < |t.shape| ==> 1 <= t.shape[j])
    requires (forall j :: 0 <= j < |sections| ==> 0 <= sections[j]) && Sum(sections, |sections|) <= t.shape[axis]
    requires EvalShape(C.host, SectionSizes(info.shape, axis, sections[k]),
                       C.dims) == Some(t.shape[axis := sections[k]])
    ensures var v := t.(offset := Address(t, Origin(|t.shape|)[axis := Sum(sections, k)]),
                        shape := t.shape[axis := sections[k]]);
      Exec(C, SectionOp(res, base, info, axis, sections, k).value, st) == Some(st.(env := st.env[res := TTensor(v)])) &&
        FitsStorage(v)
  {
    hide EvalShape, Describes, SliceOp, Exec, Sum, Flat, PayloadBytes, PartInStorage, StaticStart;
    var s, z := Origin(|t.shape|)[axis := Sum(sections, k)], t.shape[axis := sections[k]];
    var starts := SectionStarts(|info.shape|, axis, Sum(sections, k));
    DescribedSize(info, t, []);
    SectionIn(sections, k);
    forall j | 0 <= j < |s| ensures StartIs(starts[j], st.env, s[j]) { NumberIs(s[j], st.env); }
    SectionFits(t.shape, axis, Sum(sections, k), sections[k]);
    SliceRunsExactly(C, st, res, base, info, starts, SectionSizes(info.shape, axis, sections[k]), t, s, z);
    PartPasses(info, t, s, z);
  }

  /** But an empty part is not safe as such: this one, of six bytes from the end of the first row on,
      starts beyond the end of the tensor. */
  lemma EmptyPartMayFail()
    ensures var t := TensorRef(External(0), 6, 0, [2, 3], DType(1, 8, 1));
      FitsStorage(t) && !PartInStorage(t, [2, 1], [0, 1]) && Flat([2, 3], [2, 1]) == 7
  {
    assert [2, 3][1..] == [3] && [3][1..] == [] && [2, 1][1..] == [1] && [0, 1][1..] == [1] && [1][1..] == [];
    assert Product([3]) == 3 && Product([2, 3]) == 6;
    assert Product([1]) == 1 && Product([0, 1]) == 0;
    assert Flat([3], [1]) == 1;
    assert Flat([2, 3], [2, 1]) == 2 * 3 + 1;
  }

  lemma Grow(item: int, f: int, z: int, n: int)
    requires item > 0 && 0 <= f && 0 <= z && f + z <= n
    ensures 0 <= item * f && item * f + item * z <= item * n
  {
    RowMajor.MulLe(0, f, item);
    RowMajor.MulLe(f + z, n, item);
    Distribute(f, z, item);
  }

  lemma {:induction false} ElementIff(t: TensorRef, v: TensorRef, s: Index, j: Index)
    requires |s| == |t.shape| == |j| == |v.shape| && ItemSize(t.dtype) > 0 && v.dtype == t.dtype
    requires v.offset == Address(t, s)
    ensures Address(v, j) == Address(t, Plus(s, j)) <==> Flat(v.shape, j) == Flat(t.shape, j)
  {
    hide Flat, ItemSize;
    FlatPlus(t.shape, s, j);
    SameAddress(t.offset, ItemSize(t.dtype), Flat(t.shape, s), Flat(t.shape, j), Flat(v.shape, j));
  }

  lemma SameAddress(start: int, item: int, f: int, g: int, h: int)
    requires item > 0
    ensures start + item * f + item * h == start + item * (f + g) <==> h == g
  {
    Combine(item, f, g, start);
    Cancel(item, h, g);
  }

  /** The elements of a slice are the intended elements of its base exactly when the slice takes
      later axes whole; the builder does not check that. */
  lemma SliceElements(t: TensorRef, s: Index, z: seq<int>)
    requires InRange(t.shape, s, z) && ItemSize(t.dtype) > 0
    ensures var v := t.(offset := Address(t, s), shape := z);
      (forall j: Index :: InBox(j, z) ==> Address(v, j) == Address(t, Plus(s, j))) <==> Whole(t.shape, z)
  {
    hide Flat, ItemSize, Address, Whole;
    var v := t.(offset := Address(t, s), shape := z);
    ContiguousIffWhole(t.shape, z);
    forall j: Index | InBox(j, z) ensures Address(v, j) == Address(t, Plus(s, j)) <==> Flat(z, j) == Flat(t.shape, j) {
      ElementIff(t, v, s, j);
    }
  }

  lemma Cancel(item: int, a: int, b: int)
    requires item > 0
    ensures item * a == item * b <==> a == b
  {
    if a < b { RowMajor.MulLe(1, b - a, item); Distribute(a, b - a, item); }
    if b < a { RowMajor.MulLe(1, a - b, item); Distribute(b, a - b, item); }
  }

  lemma Normalized(dim: int, rank: nat)
    ensures NormalizeDim(dim, rank).Some? ==> NormalizeDim(dim, rank).value < rank
  {
  }

  /** Running a selection along an axis. */
  lemma {:induction false} SelectRuns(C: Context, st: TState, res: nat, base: Value, info: Spec, axis: int,
                                      index: Value, t: TensorRef, i: int)
    requires SelectOp(res, base, info, axis, index).Some? && Describes(info, t)
    requires EvalV(base, st.env) == Some(TTensor(t))
    requires EvalV(index, st.env) == Some(TScalar(Int(i))) && FitsStorage(t)
    requires (forall k :: 0 <= k < |t.shape| ==> 1 <= t.shape[k])
    requires 0 <= i < t.shape[NormalizeDim(axis, |info.shape|).value]
    requires var a := NormalizeDim(axis, |info.shape|).value;
      EvalShape(C.host, Dropped(info.shape, a), C.dims) == Some(Without(t.shape, a))
    ensures var a := NormalizeDim(axis, |info.shape|).value;
      var v := Selected(t, a, i);
      Exec(C, SelectOp(res, base, info, axis, index).value, st) == Some(st.(env := st.env[res := TTensor(v)])) &&
        FitsStorage(v)
  {
    hide EvalShape, Describes, NormalizeDim, Flat, Exec, StaticStride, PayloadBytes, ItemSize;
    var a, item := NormalizeDim(axis, |info.shape|).value, ItemSize(t.dtype);
    Normalized(axis, |info.shape|);
    DescribedSize(info, t, []);
    StaticStrideIs(info, t, a);
    SelectionFits(info, t, a, i);
    Scale(item, 0, i, RowMajor.Stride(t.shape, a));
    ViewIs(C, st, SelectOp(res, base, info, axis, index).value, t, i, Without(t.shape, a));
  }

  /** What running a view amounts to. */
  lemma {:induction false} ViewIs(C: Context, st: TState, op: Op, t: TensorRef, i: int, dims: seq<int>)
    requires op.ViewOp? && EvalV(op.base, st.env) == Some(TTensor(t))
    requires EvalV(op.byteOffset, st.env) == Some(TScalar(Int(i)))
    requires EvalShape(C.host, op.shape, C.dims) == Some(dims)
    ensures Exec(C, op, st) == match ViewOf(t, i * op.byteStride + op.baseOffset, dims)
      case Some(view) => Some(st.(env := st.env[op.res := TTensor(view)]))
      case None => None
  {
    hide EvalShape, EvalV, ViewOf;
  }

  lemma SelectionFits(info: Spec, t: TensorRef, axis: nat, i: int)
    requires Describes(info, t) && FitsStorage(t) && axis < |t.shape|
    requires (forall j :: 0 <= j < |t.shape| ==> 1 <= t.shape[j]) && 0 <= i < t.shape[axis]
    ensures var offset := ItemSize(t.dtype) * (i * RowMajor.Stride(t.shape, axis));
      offset >= 0 && ViewOf(t, offset, Without(t.shape, axis)) == Some(Selected(t, axis, i)) &&
        FitsStorage(Selected(t, axis, i))
  {
    hide Describes, Flat, ItemSize, PayloadBytes;
    var s, z, item := Origin(|t.shape|)[axis := i], t.shape[axis := 1], ItemSize(t.dtype);
    SectionFits(t.shape, axis, i, 1);
    FlatSingle(t.shape, axis, i);
    WithoutIsOne(t.shape, axis, Origin(|t.shape| - 1));
    DescribedSize(info, t, Without(t.shape, axis));
    ProductPositive(t.shape);
    DescribedSize(info, t, t.shape);
    Grow(item, Flat(t.shape, s), Product(z), Product(t.shape));
  }

  /** The tensor without the axis, at one position along it. */
  function Selected(t: TensorRef, axis: nat, i: int): TensorRef
    requires axis < |t.shape|
  {
    t.(offset := t.offset + ItemSize(t.dtype) * (i * RowMajor.Stride(t.shape, axis)), shape := Without(t.shape, axis))
  }

  /** Selecting denotes the intended elements exactly when the axes before have one position each, or
      the axis has; the builder does not check that either. */
  lemma SelectElements(t: TensorRef, axis: nat)
    requires axis < |t.shape| && ItemSize(t.dtype) > 0 && forall k :: 0 <= k < |t.shape| ==> 1 <= t.shape[k]
    ensures (forall j: Index, i: int :: InBox(j, Without(t.shape, axis)) && 0 <= i < t.shape[axis] ==>
              Address(Selected(t, axis, i), j) == Address(t, With(j, axis, i))) <==> OuterAxesAreOne(t.shape, axis)
  {
    hide Flat, ItemSize, OuterAxesAreOne;
    SelectIffOuterOne(t.shape, axis);
    var item := ItemSize(t.dtype);
    forall j: Index, i: int | InBox(j, Without(t.shape, axis)) && 0 <= i < t.shape[axis]
      ensures Address(Selected(t, axis, i), j) == Address(t, With(j, axis, i)) <==>
              i * RowMajor.Stride(t.shape, axis) + Flat(Without(t.shape, axis), j) == Flat(t.shape, With(j, axis, i))
    {
      var x, y := i * RowMajor.Stride(t.shape, axis), Flat(Without(t.shape, axis), j);
      Distribute(x, y, item);
      Cancel(item, x + y, Flat(t.shape, With(j, axis, i)));
    }
  }

  /** Selecting positions is[0], is[1], ... along what is the first axis each time. */
  function Chain(t: TensorRef, positions: Index): TensorRef
    requires |positions| <= |t.shape|
    decreases |positions|
  {
    if positions == [] then t else Chain(Selected(t, 0, positions[0]), positions[1..])
  }

  /** A chain of selections of the first axis denotes the intended part of the base. */
  lemma {:induction false} ChainElements(t: TensorRef, positions: Index, j: Index)
    requires |positions| + |j| == |t.shape|
    ensures |Chain(t, positions).shape| == |j| && Chain(t, positions).dtype == t.dtype
    ensures Address(Chain(t, positions), j) == Address(t, positions + j)
    decreases |positions|
  {
    if positions == [] {
      assert positions + j == j;
    } else {
      var u, rest := Selected(t, 0, positions[0]), positions[1..];
      assert Without(t.shape, 0) == t.shape[1..];
      ChainElements(u, rest, j);
      assert (positions + j)[0] == positions[0] && (positions + j)[1..] == rest + j;
      Distribute(positions[0] * RowMajor.Stride(t.shape, 0), Flat(t.shape[1..], rest + j), ItemSize(t.dtype));
    }
  }

  /** Splitting the first axis into sections that add up to it: every element of the base is in
      exactly one section, and there it is the element it should be. */
  lemma SplitPartitions(t: TensorRef, sections: seq<int>, idx: Index) returns (k: nat)
    requires t.shape != [] && InBox(idx, t.shape) && (forall j :: 0 <= j < |sections| ==> 0 <= sections[j])
    requires Sum(sections, |sections|) == t.shape[0] && ItemSize(t.dtype) > 0
    ensures InSection(sections, k, idx[0]) && forall j: nat :: InSection(sections, j, idx[0]) ==> j == k
    ensures var start := Sum(sections, k);
      var v := t.(offset := Address(t, Origin(|t.shape|)[0 := start]), shape := t.shape[0 := sections[k]]);
      var j := idx[0 := idx[0] - start];
      InBox(j, v.shape) && Address(v, j) == Address(t, idx)
  {
    k := SectionsPartition(sections, idx[0]);
    var start := Sum(sections, k);
    var s, z := Origin(|t.shape|)[0 := start], t.shape[0 := sections[k]];
    var v, j := t.(offset := Address(t, s), shape := z), idx[0 := idx[0] - start];
    assert Plus(s, j) == idx;
    assert z[1..] == t.shape[1..];
    assert Flat(z, j) == Flat(t.shape, j);
    ElementIff(t, v, s, j);
  }
}

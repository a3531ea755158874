/** Fixed-width little-endian fields, counted lists and their readers: what Python's `struct`
    (python/devproc2/vm/serializer.py) and the C++ `ByteReader` (runtime/src/vm.cc) share. */
module Wire {
  import opened Utf8

  // ---------------------------------------------------------------- fields

  function Range(n: nat): nat {
    if n == 0 then 1 else 256 * Range(n - 1)
  }

  /** `n` bytes, lowest first. */
  function Unsigned(v: nat, n: nat): (bs: seq<byte>)
    ensures |bs| == n
  {
    if n == 0 then [] else [v % 256] + Unsigned(v / 256, n - 1)
  }

  function FromUnsigned(bs: seq<byte>): nat {
    if bs == [] then 0 else bs[0] + 256 * FromUnsigned(bs[1..])
  }

  /** Two's complement. */
  function Signed(v: int, n: nat): (bs: seq<byte>)
    ensures |bs| == n
  {
    Unsigned(if v >= 0 then v else if v + Range(n) >= 0 then v + Range(n) else 0, n)
  }

  function FromSigned(bs: seq<byte>): int {
    var v := FromUnsigned(bs);
    if 2 * v < Range(|bs|) then v else v - Range(|bs|)
  }

  predicate FitsUnsigned(v: int, n: nat) {
    0 <= v < Range(n)
  }

  predicate FitsSigned(v: int, n: nat) {
    0 - Range(n) <= 2 * v < Range(n)
  }

  lemma {:induction false} UnsignedBack(v: nat, n: nat)
    requires FitsUnsigned(v, n)
    ensures FromUnsigned(Unsigned(v, n)) == v
    decreases n
  {
    if n > 0 {
      UnsignedBack(v / 256, n - 1);
      assert Unsigned(v, n)[1..] == Unsigned(v / 256, n - 1);
    }
  }

  lemma {:induction false} FromUnsignedFits(bs: seq<byte>)
    ensures FitsUnsigned(FromUnsigned(bs), |bs|)
  {
    if bs != [] { FromUnsignedFits(bs[1..]); }
  }

  lemma SignedBack(v: int, n: nat)
    requires FitsSigned(v, n)
    ensures FromSigned(Signed(v, n)) == v
  {
    UnsignedBack(if v >= 0 then v else v + Range(n), n);
  }

  ghost predicate ReadsAsUnsigned(v: int, n: nat) {
    exists bs: seq<byte> :: |bs| == n && FromUnsigned(bs) == v
  }

  ghost predicate ReadsAsSigned(v: int, n: nat) {
    exists bs: seq<byte> :: |bs| == n && FromSigned(bs) == v
  }

  /** A number fits a field exactly when some bytes of that length are read as it. */
  lemma FitsExactly(v: int, n: nat)
    ensures FitsUnsigned(v, n) <==> ReadsAsUnsigned(v, n)
    ensures n > 0 ==> (FitsSigned(v, n) <==> ReadsAsSigned(v, n))
  {
    if FitsUnsigned(v, n) { UnsignedBack(v, n); }
    if ReadsAsUnsigned(v, n) {
      var bs: seq<byte> :| |bs| == n && FromUnsigned(bs) == v;
      FromUnsignedFits(bs);
    }
    if n > 0 && FitsSigned(v, n) { SignedBack(v, n); }
    if ReadsAsSigned(v, n) {
      var bs: seq<byte> :| |bs| == n && FromSigned(bs) == v;
      FromUnsignedFits(bs);
      EvenRange(n);
    }
  }

  lemma {:induction false} EvenRange(n: nat)
    ensures n > 0 ==> Range(n) % 2 == 0
  {
  }

  // ---------------------------------------------------------------- reading

  datatype Fault =
    | EndOfData | BadMagic | BadVersion(v: nat) | BadText
    | BadKind(b: nat) | BadOpcode(b: nat) | BadTag(b: nat)

  /** What was read and the position after it. */
  datatype Read<+T> = Got(value: T, next: nat) | Bad(fault: Fault) {
    predicate IsFailure(): (r: bool)
      ensures r == Bad?
    {
      Bad?
    }

    function PropagateFailure<U>(): (r: Read<U>)
      requires Bad?
      ensures r == Bad(fault)
    {
      Bad(fault)
    }

    function Extract(): (r: Read<T>)
      requires Got?
      ensures r == this
    {
      this
    }
  }

  function ReadBytes(data: seq<byte>, pos: nat, n: nat): Read<seq<byte>> {
    if pos + n <= |data| then Got(data[pos..pos + n], pos + n) else Bad(EndOfData)
  }

  function ReadUnsigned(data: seq<byte>, pos: nat, n: nat): Read<nat> {
    var field :- ReadBytes(data, pos, n);
    Got(FromUnsigned(field.value), field.next)
  }

  function ReadSigned(data: seq<byte>, pos: nat, n: nat): Read<int> {
    var field :- ReadBytes(data, pos, n);
    Got(FromSigned(field.value), field.next)
  }

  function Many<T>(read: nat -> Read<T>, n: nat, pos: nat): (r: Read<seq<T>>)
    ensures r.Got? ==> |r.value| == n
    decreases n
  {
    if n == 0 then Got([], pos)
    else
      var init :- Many(read, n - 1, pos);
      var last :- read(init.next);
      Got(init.value + [last.value], last.next)
  }

  lemma {:induction false} ManyNone<T>(read: nat -> Read<T>, pos: nat)
    ensures Many(read, 0, pos) == Got([], pos)
  {
  }

  // ---------------------------------------------------------------- what is written is read

  predicate At(data: seq<byte>, pos: nat, bs: seq<byte>) {
    pos + |bs| <= |data| && data[pos..pos + |bs|] == bs
  }

  lemma AtStart(a: seq<byte>, rest: seq<byte>)
    ensures At(a + rest, 0, a)
  {
  }

  lemma AtParts(data: seq<byte>, pos: nat, a: seq<byte>, b: seq<byte>)
    requires At(data, pos, a + b)
    ensures At(data, pos, a) && At(data, pos + |a|, b)
  {
    assert (a + b)[..|a|] == a && (a + b)[|a|..] == b;
    assert data[pos..pos + |a|] == data[pos..pos + |a + b|][..|a|];
    assert data[pos + |a|..pos + |a + b|] == data[pos..pos + |a + b|][|a|..];
  }

  lemma {:induction false} ReadsUnsigned(data: seq<byte>, pos: nat, v: nat, n: nat)
    requires FitsUnsigned(v, n) && At(data, pos, Unsigned(v, n))
    ensures ReadUnsigned(data, pos, n) == Got(v, pos + n)
  {
    UnsignedBack(v, n);
  }

  lemma ReadsSigned(data: seq<byte>, pos: nat, v: int, n: nat)
    requires FitsSigned(v, n) && At(data, pos, Signed(v, n))
    ensures ReadSigned(data, pos, n) == Got(v, pos + n)
  {
    SignedBack(v, n);
  }

  function All<T>(enc: T -> seq<byte>, xs: seq<T>): seq<byte> {
    if xs == [] then [] else All(enc, xs[..|xs| - 1]) + enc(xs[|xs| - 1])
  }

  lemma {:induction false} AllNonEmpty<T>(enc: T -> seq<byte>, xs: seq<T>)
    requires |All(enc, xs)| > 0
    ensures xs != []
  {
  }

  function Map<T, U>(f: T -> U, xs: seq<T>): (ys: seq<U>)
    ensures |ys| == |xs| && forall k :: 0 <= k < |xs| ==> ys[k] == f(xs[k])
  {
    seq(|xs|, k requires 0 <= k < |xs| => f(xs[k]))
  }

  /** `read` turns the bytes of x into `view(x)` wherever they are. */
  ghost predicate ReadsBack<T, U>(data: seq<byte>, read: nat -> Read<U>, enc: T -> seq<byte>, view: T -> U, x: T) {
    forall p: nat :: At(data, p, enc(x)) ==> read(p) == Got(view(x), p + |enc(x)|)
  }

  lemma {:induction false} ReadsMany<T,
          U>(data: seq<byte>, read: nat -> Read<U>, enc: T -> seq<byte>, view: T -> U, xs: seq<T>, pos: nat)
    requires At(data, pos, All(enc, xs))
    requires forall x :: x in xs ==> ReadsBack(data, read, enc, view, x)
    ensures Many(read, |xs|, pos) == Got(Map(view, xs), pos + |All(enc, xs)|)
    decreases |xs|
  {
    if xs == [] {
      assert Map(view, xs) == [];
    } else {
      var init, last := xs[..|xs| - 1], xs[|xs| - 1];
      AtParts(data, pos, All(enc, init), enc(last));
      ReadsMany(data, read, enc, view, init, pos);
      assert ReadsBack(data, read, enc, view, last);
      assert Map(view, xs) == Map(view, init) + [view(last)];
    }
  }

  // ---------------------------------------------------------------- reading more data

  /** Reading goes forward, and reads the same from longer data unless something was missing. */
  ghost predicate Agrees<T>(short: Read<T>, long: Read<T>, pos: nat, size: nat) {
    short.Got? ==> pos <= short.next && (short.next <= size ==> long == short)
  }

  /** Nothing was missing. */
  ghost predicate Within<T>(r: Read<T>, size: nat) {
    r.Got? ==> r.next <= size
  }

  /** What needs more than the shorter data has is missing there. */
  lemma CutIsBad<T>(short: Read<T>, long: Read<T>, pos: nat, size: nat)
    requires Agrees(short, long, pos, size) && Within(short, size) && long.Got? && long.next > size
    ensures short.Bad?
  {
  }

  lemma BytesAgree(data: seq<byte>, more: seq<byte>, pos: nat, n: nat)
    ensures Agrees(ReadBytes(data, pos, n), ReadBytes(data + more, pos, n), pos, |data|)
  {
    if pos + n <= |data| { assert (data + more)[pos..pos + n] == data[pos..pos + n]; }
  }

  lemma UnsignedAgrees(data: seq<byte>, more: seq<byte>, pos: nat, n: nat)
    ensures Agrees(ReadUnsigned(data, pos, n), ReadUnsigned(data + more, pos, n), pos, |data|)
  {
    BytesAgree(data, more, pos, n);
  }

  lemma SignedAgrees(data: seq<byte>, more: seq<byte>, pos: nat, n: nat)
    ensures Agrees(ReadSigned(data, pos, n), ReadSigned(data + more, pos, n), pos, |data|)
  {
    BytesAgree(data, more, pos, n);
  }

  lemma {:induction false} ManyAgree<T>(read: nat -> Read<T>, read': nat -> Read<T>, n: nat, pos: nat, size: nat)
    requires forall p: nat :: Agrees(read(p), read'(p), p, size)
    ensures Agrees(Many(read, n, pos), Many(read', n, pos), pos, size)
    decreases n
  {
    if n > 0 {
      ManyAgree(read, read', n - 1, pos, size);
      var init := Many(read, n - 1, pos);
      if init.Got? { assert Agrees(read(init.next), read'(init.next), init.next, size); }
    }
  }

  lemma {:induction false} ManyWithin<T>(read: nat -> Read<T>, n: nat, pos: nat, size: nat)
    requires pos <= size && forall p: nat :: Within(read(p), size)
    ensures Within(Many(read, n, pos), size)
    decreases n
  {
    if n > 0 {
      ManyWithin(read, n - 1, pos, size);
      var init := Many(read, n - 1, pos);
      if init.Got? { assert Within(read(init.next), size); }
    }
  }
}

/** Writing and reading bytecode files step by step: the growing buffer of
    python/devproc2/vm/serializer.py, its reader, and the reader of runtime/src/vm.cc. */
module BytecodeFile {
  import opened Bytecode
  import opened Runtime
  import opened Builtins
  import opened Utf8
  import W = Wire
  import opened Format
  import R = Readers

  type Read<+T> = W.Read<T>

  // ---------------------------------------------------------------- writing

  lemma AllNext<T>(enc: T -> seq<byte>, xs: seq<T>, k: nat)
    requires k < |xs|
    ensures W.All(enc, xs[..k + 1]) == W.All(enc, xs[..k]) + enc(xs[k])
  {
    assert xs[..k + 1][..k] == xs[..k];
  }

  class Writer {
    var buf: seq<byte>

    constructor ()
      ensures buf == []
    {
      buf := [];
    }

    method Bytes(bs: seq<byte>)
      modifies this
      ensures buf == old(buf) + bs
    {
      buf := buf + bs;
    }

    /** `struct.pack` refuses what does not fit. */
    method Unsigned(v: int, n: nat) returns (ok: bool)
      modifies this
      ensures ok == W.FitsUnsigned(v, n)
      ensures ok ==> buf == old(buf) + W.Unsigned(v, n)
    {
      ok := W.FitsUnsigned(v, n);
      if ok { Bytes(W.Unsigned(v, n)); }
    }

    method Signed(v: int, n: nat) returns (ok: bool)
      modifies this
      ensures ok == W.FitsSigned(v, n)
      ensures ok ==> buf == old(buf) + W.Signed(v, n)
    {
      ok := W.FitsSigned(v, n);
      if ok { Bytes(W.Signed(v, n)); }
    }

    method Text(s: string) returns (ok: bool)
      modifies this
      ensures ok == TextFits(s)
      ensures ok ==> buf == old(buf) + EncText(s)
    {
      hide Encode, W.Unsigned, W.FitsUnsigned;
      var bs := Encode(s);
      ok := Unsigned(|bs|, 4);
      if ok {
        Bytes(bs);
        assert buf == old(buf) + (W.Unsigned(|bs|, 4) + bs);
      }
    }

    method Texts(ss: seq<string>) returns (ok: bool)
      modifies this
      ensures ok == forall s :: s in ss ==> TextFits(s)
      ensures ok ==> buf == old(buf) + W.All(EncText, ss)
    {
      hide EncText, TextFits;
      for k := 0 to |ss|
        invariant forall s :: s in ss[..k] ==> TextFits(s)
        invariant buf == old(buf) + W.All(EncText, ss[..k])
      {
        ok := Text(ss[k]);
        if !ok { return; }
        AllNext(EncText, ss, k);
      }
      ok := true;
      assert ss[..|ss|] == ss;
    }

    method Inits(cis: seq<ConstInit>) returns (ok: bool)
      modifies this
      ensures ok == forall ci :: ci in cis ==> InitFits(ci)
      ensures ok ==> buf == old(buf) + W.All(EncInit, cis)
    {
      hide W.Signed, W.FitsSigned;
      for k := 0 to |cis|
        invariant forall ci :: ci in cis[..k] ==> InitFits(ci)
        invariant buf == old(buf) + W.All(EncInit, cis[..k])
      {
        assert cis[k] in cis;
        ok := Signed(cis[k].reg, 4);
        if !ok { return; }
        ok := Signed(cis[k].idx, 4);
        if !ok { return; }
        AllNext(EncInit, cis, k);
      }
      ok := true;
      assert cis[..|cis|] == cis;
    }

    method Regs(rs: seq<int>) returns (ok: bool)
      modifies this
      ensures ok == RegsFit(rs)
      ensures ok ==> buf == old(buf) + EncRegs(rs)
    {
      hide W.Signed, W.FitsSigned, W.Unsigned, W.FitsUnsigned;
      ok := Unsigned(|rs|, 4);
      if !ok { return; }
      for k := 0 to |rs|
        invariant forall r :: r in rs[..k] ==> W.FitsSigned(r, 4)
        invariant buf == old(buf) + W.Unsigned(|rs|, 4) + W.All(EncReg, rs[..k])
      {
        ok := Signed(rs[k], 4);
        if !ok { return; }
        AllNext(EncReg, rs, k);
      }
      ok := true;
      assert rs[..|rs|] == rs;
    }

    method Entry(f: FunctionEntry<string>) returns (ok: bool)
      modifies this
      ensures ok == EntryFits(f)
      ensures ok ==> buf == old(buf) + EncEntry(f)
    {
      hide EncInit, EncText, InitFits, KindByte, TextFits, W.All, W.FitsSigned, W.FitsUnsigned, W.Signed,
           W.Unsigned;
      ok := Text(f.name);
      if !ok { return; }
      Bytes([KindByte(f.kind)]);
      ok := Signed(f.instrOffset, 4);
      if !ok { return; }
      ok := Signed(f.instrCount, 4);
      if !ok { return; }
      ok := Signed(f.numRegs, 4);
      if !ok { return; }
      ok := Signed(f.numArgs, 4);
      if !ok { return; }
      ok := Signed(|f.inits|, 4);
      if !ok { return; }
      ok := Inits(f.inits);
      if !ok { return; }
      ok := Unsigned(|f.paramNames|, 4);
      if !ok { return; }
      ok := Texts(f.paramNames);
    }

    method Instruction(i: Instr) returns (ok: bool)
      modifies this
      ensures ok == InstrFits(i)
      ensures ok ==> buf == old(buf) + EncInstr(i)
    {
      hide EncRegs, OpByte, RegsFit, W.FitsSigned, W.Signed;
      Bytes([OpByte(i.op)]);
      ok := Signed(i.dst, 4);
      if !ok { return; }
      ok := Signed(i.func, 4);
      if !ok { return; }
      ok := Signed(i.src, 4);
      if !ok { return; }
      ok := Signed(i.cond, 4);
      if !ok { return; }
      ok := Signed(i.trueOff, 4);
      if !ok { return; }
      ok := Signed(i.falseOff, 4);
      if !ok { return; }
      ok := Signed(i.off, 4);
      if !ok { return; }
      ok := Regs(i.args);
      if !ok { return; }
      ok := Regs(i.launch);
    }

    method Constant(c: Const) returns (ok: bool)
      modifies this
      ensures ok == ConstFits(c)
      ensures ok ==> buf == old(buf) + EncConst(c)
    {
      hide W.Signed, W.FitsSigned, W.Unsigned, W.FitsUnsigned, EncText, TextFits;
      match c
      case Null =>
        Bytes([TAG_NULL]);
        Bytes(W.Unsigned(0, 8));
        ok := true;
      case Bool(b) =>
        Bytes([TAG_BOOL]);
        Bytes(W.Signed(if b then 1 else 0, 8));
        ok := true;
      case Int(v) =>
        Bytes([TAG_INT]);
        ok := Signed(v, 8);
      case Float(bits) =>
        Bytes([TAG_FLOAT]);
        ok := Unsigned(bits, 8);
      case Str(s) =>
        Bytes([TAG_STR]);
        ok := Text(s);
    }

    method Entries(xs: seq<FunctionEntry<string>>) returns (ok: bool)
      modifies this
      ensures ok == forall x :: x in xs ==> EntryFits(x)
      ensures ok ==> buf == old(buf) + W.All(EncEntry, xs)
    {
      hide EncEntry, EntryFits;
      for k := 0 to |xs|
        invariant forall x :: x in xs[..k] ==> EntryFits(x)
        invariant buf == old(buf) + W.All(EncEntry, xs[..k])
      {
        assert xs[k] in xs;
        ok := Entry(xs[k]);
        if !ok { return; }
        AllNext(EncEntry, xs, k);
      }
      ok := true;
      assert xs[..|xs|] == xs;
    }

    method Instructions(xs: seq<Instr>) returns (ok: bool)
      modifies this
      ensures ok == forall x :: x in xs ==> InstrFits(x)
      ensures ok ==> buf == old(buf) + W.All(EncInstr, xs)
    {
      hide EncInstr, InstrFits;
      for k := 0 to |xs|
        invariant forall x :: x in xs[..k] ==> InstrFits(x)
        invariant buf == old(buf) + W.All(EncInstr, xs[..k])
      {
        assert xs[k] in xs;
        ok := Instruction(xs[k]);
        if !ok { return; }
        AllNext(EncInstr, xs, k);
      }
      ok := true;
      assert xs[..|xs|] == xs;
    }

    method Constants(xs: seq<Const>) returns (ok: bool)
      modifies this
      ensures ok == forall x :: x in xs ==> ConstFits(x)
      ensures ok ==> buf == old(buf) + W.All(EncConst, xs)
    {
      hide EncConst, ConstFits;
      for k := 0 to |xs|
        invariant forall x :: x in xs[..k] ==> ConstFits(x)
        invariant buf == old(buf) + W.All(EncConst, xs[..k])
      {
        assert xs[k] in xs;
        ok := Constant(xs[k]);
        if !ok { return; }
        AllNext(EncConst, xs, k);
      }
      ok := true;
      assert xs[..|xs|] == xs;
    }

    /** Magic, version and the three counts. */
    method Header(nf: nat, ni: nat, nc: nat) returns (ok: bool)
      modifies this
      ensures ok == (W.FitsUnsigned(nf, 4) && W.FitsUnsigned(ni, 4) && W.FitsUnsigned(nc, 4))
      ensures ok ==> buf == old(buf) + EncHeader(nf, ni, nc)
    {
      hide W.Unsigned, W.FitsUnsigned;
      Bytes(MAGIC);
      Bytes(W.Unsigned(VERSION, 4));
      ok := Unsigned(nf, 4);
      if !ok { return; }
      ok := Unsigned(ni, 4);
      if !ok { return; }
      ok := Unsigned(nc, 4);
    }
  }

  /** The file of an executable, unless some number does not fit its field. */
  method Serialize(e: Executable<string>) returns (r: Option<seq<byte>>)
    ensures r == if Fits(e) then Some(Enc(e)) else None
  {
    hide ConstFits, EncConst, EncEntry, EncHeader, EncInstr, EntryFits, InstrFits, W.All, W.FitsUnsigned;
    var w := new Writer();
    var ok := w.Header(|e.funcs|, |e.instrs|, |e.consts|);
    if !ok { return None; }
    ok := w.Entries(e.funcs);
    if !ok { return None; }
    ok := w.Instructions(e.instrs);
    if !ok { return None; }
    ok := w.Constants(e.consts);
    if !ok { return None; }
    r := Some(w.buf);
    var h, a, b, c := EncHeader(|e.funcs|, |e.instrs|, |e.consts|), W.All(EncEntry, e.funcs), W.All(EncInstr, e.instrs),
      W.All(EncConst, e.consts);
    assert [] + h + a + b + c == h + (a + (b + c));
  }

  // ---------------------------------------------------------------- reading

  lemma ManyFrom<T>(read: nat -> Read<T>, n: nat, pos: nat)
    requires n > 0
    ensures W.Many(read, n, pos) ==
            (match W.Many(read, n - 1, pos)
             case Bad(x) => W.Bad(x)
             case Got(init, p) =>
               match read(p)
               case Bad(x) => W.Bad(x)
               case Got(last, q) => W.Got(init + [last], q))
  {
  }

  /** A list is bad as soon as one of its first items is. */
  lemma {:induction false} ManyStops<T>(read: nat -> Read<T>, k: nat, n: nat, pos: nat)
    requires k <= n && W.Many(read, k, pos).Bad?
    ensures W.Many(read, n, pos) == W.Many(read, k, pos)
    decreases n
  {
    if k < n { ManyStops(read, k, n - 1, pos); }
  }

  class ByteReader {
    const data: seq<byte>
    var pos: nat

    constructor (data: seq<byte>, pos: nat)
      ensures this.data == data && this.pos == pos
    {
      this.data := data;
      this.pos := pos;
    }

    /** `unpack_from` and `read<T>` fail without moving when bytes are missing. */
    method Bytes(n: nat) returns (r: Read<seq<byte>>)
      modifies this`pos
      ensures r == W.ReadBytes(data, old(pos), n)
      ensures pos == if r.Got? then r.next else old(pos)
    {
      if pos + n > |data| { return W.Bad(W.EndOfData); }
      r := W.Got(data[pos..pos + n], pos + n);
      pos := pos + n;
    }

    method Unsigned(n: nat) returns (r: Read<nat>)
      modifies this`pos
      ensures r == W.ReadUnsigned(data, old(pos), n)
      ensures r.Got? ==> pos == r.next
    {
      var field :- Bytes(n);
      r := W.Got(W.FromUnsigned(field.value), pos);
    }

    method Signed(n: nat) returns (r: Read<int>)
      modifies this`pos
      ensures r == W.ReadSigned(data, old(pos), n)
      ensures r.Got? ==> pos == r.next
    {
      var field :- Bytes(n);
      r := W.Got(W.FromSigned(field.value), pos);
    }

    /** C++: `read_string`. */
    method CppText() returns (r: Read<seq<byte>>)
      modifies this`pos
      ensures r == R.CppText(data, old(pos))
      ensures r.Got? ==> pos == r.next
    {
      var n :- Unsigned(4);
      r := Bytes(n.value);
    }

    /** Python: a slice, and the position moves on regardless. */
    method PyText() returns (r: Read<string>)
      modifies this`pos
      ensures r == R.PyText(data, old(pos))
      ensures r.Got? ==> pos == r.next
    {
      var n :- Unsigned(4);
      var text := Decode(data[R.Min(pos, |data|)..R.Min(pos + n.value, |data|)]);
      pos := pos + n.value;
      r := if text.Some? then W.Got(text.value, pos) else W.Bad(W.BadText);
    }

    method Regs(n: nat) returns (r: Read<seq<int>>)
      modifies this`pos
      ensures r == W.Many(R.Regs(data), n, old(pos))
      ensures r.Got? ==> pos == r.next
    {
      hide W.Many;
      var xs: seq<int> := [];
      W.ManyNone(R.Regs(data), pos);
      for k := 0 to n
        invariant W.Many(R.Regs(data), k, old(pos)) == W.Got(xs, pos)
      {
        ManyFrom(R.Regs(data), k + 1, old(pos));
        var x := Signed(4);
        if x.Bad? {
          ManyStops(R.Regs(data), k + 1, n, old(pos));
          return W.Bad(x.fault);
        }
        xs := xs + [x.value];
      }
      r := W.Got(xs, pos);
    }

    method Init() returns (r: Read<ConstInit>)
      modifies this`pos
      ensures r == R.ReadInit(data, old(pos))
      ensures r.Got? ==> pos == r.next
    {
      var reg :- Signed(4);
      var idx :- Signed(4);
      r := W.Got(ConstInit(reg.value, idx.value), pos);
    }

    method Inits(n: nat) returns (r: Read<seq<ConstInit>>)
      modifies this`pos
      ensures r == W.Many(R.Inits(data), n, old(pos))
      ensures r.Got? ==> pos == r.next
    {
      hide W.Many;
      var xs: seq<ConstInit> := [];
      W.ManyNone(R.Inits(data), pos);
      for k := 0 to n
        invariant W.Many(R.Inits(data), k, old(pos)) == W.Got(xs, pos)
      {
        ManyFrom(R.Inits(data), k + 1, old(pos));
        var x := Init();
        if x.Bad? {
          ManyStops(R.Inits(data), k + 1, n, old(pos));
          return W.Bad(x.fault);
        }
        xs := xs + [x.value];
      }
      r := W.Got(xs, pos);
    }

    method CppTexts(n: nat) returns (r: Read<seq<seq<byte>>>)
      modifies this`pos
      ensures r == W.Many(R.CppTexts(data), n, old(pos))
      ensures r.Got? ==> pos == r.next
    {
      hide W.Many;
      var xs: seq<seq<byte>> := [];
      W.ManyNone(R.CppTexts(data), pos);
      for k := 0 to n
        invariant W.Many(R.CppTexts(data), k, old(pos)) == W.Got(xs, pos)
      {
        ManyFrom(R.CppTexts(data), k + 1, old(pos));
        var x := CppText();
        if x.Bad? {
          ManyStops(R.CppTexts(data), k + 1, n, old(pos));
          return W.Bad(x.fault);
        }
        xs := xs + [x.value];
      }
      r := W.Got(xs, pos);
    }

    method PyTexts(n: nat) returns (r: Read<seq<string>>)
      modifies this`pos
      ensures r == W.Many(R.PyTexts(data), n, old(pos))
      ensures r.Got? ==> pos == r.next
    {
      hide W.Many;
      var xs: seq<string> := [];
      W.ManyNone(R.PyTexts(data), pos);
      for k := 0 to n
        invariant W.Many(R.PyTexts(data), k, old(pos)) == W.Got(xs, pos)
      {
        ManyFrom(R.PyTexts(data), k + 1, old(pos));
        var x := PyText();
        if x.Bad? {
          ManyStops(R.PyTexts(data), k + 1, n, old(pos));
          return W.Bad(x.fault);
        }
        xs := xs + [x.value];
      }
      r := W.Got(xs, pos);
    }

    method Fields(h: Host) returns (r: Read<R.Fields>)
      modifies this`pos
      ensures r == R.ReadFields(h, data, old(pos))
      ensures r.Got? ==> pos == r.next
    {
      hide EncInit, InitFits, R.InitCount, R.Inits, W.All, W.FitsSigned, W.FitsUnsigned, W.Many, W.ReadSigned,
           W.ReadUnsigned, W.Signed, W.Unsigned;
      var kind :- Unsigned(1);
      var offset :- Signed(4);
      var count :- Signed(4);
      var regs :- Signed(4);
      var args :- Signed(4);
      var n :- Signed(4);
      var inits :- Inits(R.InitCount(h, n.value));
      var names :- Unsigned(4);
      r := W.Got(R.Fields.Fields(kind.value, offset.value, count.value, regs.value, args.value, inits.value,
                                 names.value), pos);
    }

    method Operands() returns (r: Read<seq<int>>)
      modifies this`pos
      ensures r == R.ReadRegs(data, old(pos))
      ensures r.Got? ==> pos == r.next
    {
      var n :- Unsigned(4);
      r := Regs(n.value);
    }

    method Instruction() returns (r: Read<R.RawInstr>)
      modifies this`pos
      ensures r == R.ReadInstr(data, old(pos))
      ensures r.Got? ==> pos == r.next
    {
      hide R.ReadRegs, W.FitsSigned, W.FitsUnsigned, W.ReadSigned, W.ReadUnsigned, W.Signed, W.Unsigned;
      var op :- Unsigned(1);
      var dst :- Signed(4);
      var func :- Signed(4);
      var src :- Signed(4);
      var cond :- Signed(4);
      var ifTrue :- Signed(4);
      var ifFalse :- Signed(4);
      var off :- Signed(4);
      var args :- Operands();
      var launch :- Operands();
      r := W.Got(R.RawInstr.RawInstr(op.value, dst.value, func.value, args.value, launch.value, src.value, cond.value,
                                     ifTrue.value, ifFalse.value, off.value), pos);
    }

    method Scalar(tag: nat) returns (r: Read<Const>)
      modifies this`pos
      ensures r == R.ReadScalar(data, tag, old(pos))
      ensures r.Got? ==> pos == r.next
    {
      if tag == TAG_NULL {
        var pad :- Bytes(8);
        r := W.Got(Null, pos);
      } else if tag == TAG_INT {
        var v :- Signed(8);
        r := W.Got(Int(v.value), pos);
      } else if tag == TAG_FLOAT {
        var v :- Unsigned(8);
        r := W.Got(Float(v.value), pos);
      } else if tag == TAG_BOOL {
        var v :- Signed(8);
        r := W.Got(Bool(v.value != 0), pos);
      } else {
        r := W.Bad(W.BadTag(tag));
      }
    }

    method Magic() returns (r: Read<()>)
      requires pos == 0
      modifies this`pos
      ensures r == R.ReadMagic(data)
      ensures r.Got? ==> pos == r.next
    {
      if data[..R.Min(4, |data|)] != MAGIC { return W.Bad(W.BadMagic); }
      pos := 4;
      r := W.Got((), 4);
    }

    // C++

    method CppEntry() returns (r: Read<R.RawEntry<seq<byte>>>)
      modifies this`pos
      ensures r == R.CppEntry(data, old(pos))
      ensures r.Got? ==> pos == r.next
    {
      hide R.CppText, R.CppTexts, R.EntryOf, R.ReadFields, W.Many;
      var name :- CppText();
      var fields :- Fields(Cpp);
      var names :- CppTexts(fields.value.names);
      r := W.Got(R.EntryOf(name.value, fields.value, names.value), pos);
    }

    method CppConst() returns (r: Read<Const>)
      modifies this`pos
      ensures r == R.CppConst(data, old(pos))
      ensures r.Got? ==> pos == r.next
    {
      var tag :- Unsigned(1);
      if tag.value == TAG_STR {
        var s :- CppText();
        r := W.Got(Null, pos);
      } else {
        r := Scalar(tag.value);
      }
    }

    method CppEntries(n: nat) returns (r: Read<seq<R.RawEntry<seq<byte>>>>)
      modifies this`pos
      ensures r == W.Many(R.CppEntries(data), n, old(pos))
      ensures r.Got? ==> pos == r.next
    {
      hide W.Many;
      var xs: seq<R.RawEntry<seq<byte>>> := [];
      W.ManyNone(R.CppEntries(data), pos);
      for k := 0 to n
        invariant W.Many(R.CppEntries(data), k, old(pos)) == W.Got(xs, pos)
      {
        ManyFrom(R.CppEntries(data), k + 1, old(pos));
        var x := CppEntry();
        if x.Bad? {
          ManyStops(R.CppEntries(data), k + 1, n, old(pos));
          return W.Bad(x.fault);
        }
        xs := xs + [x.value];
      }
      r := W.Got(xs, pos);
    }

    method Instructions(n: nat) returns (r: Read<seq<R.RawInstr>>)
      modifies this`pos
      ensures r == W.Many(R.Instrs(data), n, old(pos))
      ensures r.Got? ==> pos == r.next
    {
      hide W.Many;
      var xs: seq<R.RawInstr> := [];
      W.ManyNone(R.Instrs(data), pos);
      for k := 0 to n
        invariant W.Many(R.Instrs(data), k, old(pos)) == W.Got(xs, pos)
      {
        ManyFrom(R.Instrs(data), k + 1, old(pos));
        var x := Instruction();
        if x.Bad? {
          ManyStops(R.Instrs(data), k + 1, n, old(pos));
          return W.Bad(x.fault);
        }
        xs := xs + [x.value];
      }
      r := W.Got(xs, pos);
    }

    method CppConsts(n: nat) returns (r: Read<seq<Const>>)
      modifies this`pos
      ensures r == W.Many(R.CppConsts(data), n, old(pos))
      ensures r.Got? ==> pos == r.next
    {
      hide W.Many;
      var xs: seq<Const> := [];
      W.ManyNone(R.CppConsts(data), pos);
      for k := 0 to n
        invariant W.Many(R.CppConsts(data), k, old(pos)) == W.Got(xs, pos)
      {
        ManyFrom(R.CppConsts(data), k + 1, old(pos));
        var x := CppConst();
        if x.Bad? {
          ManyStops(R.CppConsts(data), k + 1, n, old(pos));
          return W.Bad(x.fault);
        }
        xs := xs + [x.value];
      }
      r := W.Got(xs, pos);
    }

    // Python

    method PyEntry() returns (r: Read<FunctionEntry<string>>)
      modifies this`pos
      ensures r == R.PyEntry(data, old(pos))
      ensures r.Got? ==> pos == r.next
    {
      hide R.KindOf, R.PyText, R.PyTexts, R.ReadFields, W.Many;
      var name :- PyText();
      var fields :- Fields(Py);
      var names :- PyTexts(fields.value.names);
      var f := fields.value;
      match R.KindOf(f.kind)
      case None => r := W.Bad(W.BadKind(f.kind));
      case Some(kind) =>
        r := W.Got(FunctionEntry(name.value, kind, f.instrOffset, f.instrCount, f.numRegs, f.numArgs, f.inits,
                                 names.value), pos);
    }

    method PyInstr() returns (r: Read<Instr>)
      modifies this`pos
      ensures r == R.PyInstr(data, old(pos))
      ensures r.Got? ==> pos == r.next
    {
      hide EncInstr, InstrFits, R.OpOf, R.ReadInstr;
      var raw :- Instruction();
      var i := raw.value;
      match R.OpOf(i.op)
      case None => r := W.Bad(W.BadOpcode(i.op));
      case Some(op) =>
        r := W.Got(Instr(op, i.dst, i.func, i.args, i.launch, i.src, i.cond, i.trueOff, i.falseOff, i.off), pos);
    }

    method PyConst() returns (r: Read<Const>)
      modifies this`pos
      ensures r == R.PyConst(data, old(pos))
      ensures r.Got? ==> pos == r.next
    {
      var tag :- Unsigned(1);
      if tag.value == TAG_STR {
        var s :- PyText();
        r := W.Got(Str(s.value), pos);
      } else {
        r := Scalar(tag.value);
      }
    }

    method PyEntries(n: nat) returns (r: Read<seq<FunctionEntry<string>>>)
      modifies this`pos
      ensures r == W.Many(R.PyEntries(data), n, old(pos))
      ensures r.Got? ==> pos == r.next
    {
      hide W.Many;
      var xs: seq<FunctionEntry<string>> := [];
      W.ManyNone(R.PyEntries(data), pos);
      for k := 0 to n
        invariant W.Many(R.PyEntries(data), k, old(pos)) == W.Got(xs, pos)
      {
        ManyFrom(R.PyEntries(data), k + 1, old(pos));
        var x := PyEntry();
        if x.Bad? {
          ManyStops(R.PyEntries(data), k + 1, n, old(pos));
          return W.Bad(x.fault);
        }
        xs := xs + [x.value];
      }
      r := W.Got(xs, pos);
    }

    method PyInstrs(n: nat) returns (r: Read<seq<Instr>>)
      modifies this`pos
      ensures r == W.Many(R.PyInstrs(data), n, old(pos))
      ensures r.Got? ==> pos == r.next
    {
      hide W.Many;
      var xs: seq<Instr> := [];
      W.ManyNone(R.PyInstrs(data), pos);
      for k := 0 to n
        invariant W.Many(R.PyInstrs(data), k, old(pos)) == W.Got(xs, pos)
      {
        ManyFrom(R.PyInstrs(data), k + 1, old(pos));
        var x := PyInstr();
        if x.Bad? {
          ManyStops(R.PyInstrs(data), k + 1, n, old(pos));
          return W.Bad(x.fault);
        }
        xs := xs + [x.value];
      }
      r := W.Got(xs, pos);
    }

    method PyConsts(n: nat) returns (r: Read<seq<Const>>)
      modifies this`pos
      ensures r == W.Many(R.PyConsts(data), n, old(pos))
      ensures r.Got? ==> pos == r.next
    {
      hide W.Many;
      var xs: seq<Const> := [];
      W.ManyNone(R.PyConsts(data), pos);
      for k := 0 to n
        invariant W.Many(R.PyConsts(data), k, old(pos)) == W.Got(xs, pos)
      {
        ManyFrom(R.PyConsts(data), k + 1, old(pos));
        var x := PyConst();
        if x.Bad? {
          ManyStops(R.PyConsts(data), k + 1, n, old(pos));
          return W.Bad(x.fault);
        }
        xs := xs + [x.value];
      }
      r := W.Got(xs, pos);
    }
  }

  /** Executable::Deserialize. */
  method CppLoad(data: seq<byte>) returns (r: Read<R.RawExecutable>)
    ensures r == R.CppDeserialize(data)
  {
    hide EncInstr, InstrFits, R.CppConsts, R.CppEntries, R.Instrs, R.ReadMagic, W.All, W.FitsUnsigned, W.Many,
         W.ReadUnsigned, W.Unsigned;
    var reader := new ByteReader(data, 0);
    var magic :- reader.Magic();
    var version :- reader.Unsigned(4);
    var nf :- reader.Unsigned(4);
    var ni :- reader.Unsigned(4);
    var nc :- reader.Unsigned(4);
    if version.value != VERSION { return W.Bad(W.BadVersion(version.value)); }
    var funcs :- reader.CppEntries(nf.value);
    var instrs :- reader.Instructions(ni.value);
    var consts :- reader.CppConsts(nc.value);
    r := W.Got(R.RawExecutable.RawExecutable(funcs.value, instrs.value, consts.value), reader.pos);
  }

  /** deserialize. */
  method PyLoad(data: seq<byte>) returns (r: Read<Executable<string>>)
    ensures r == R.PyDeserialize(data)
  {
    hide R.PyConsts, R.PyEntries, R.PyInstrs, R.ReadMagic, W.FitsUnsigned, W.Many, W.ReadUnsigned, W.Unsigned;
    var reader := new ByteReader(data, 0);
    var magic :- reader.Magic();
    var version :- reader.Unsigned(4);
    var nf :- reader.Unsigned(4);
    var ni :- reader.Unsigned(4);
    if version.value != VERSION { return W.Bad(W.BadVersion(version.value)); }
    var nc :- reader.Unsigned(4);
    var funcs :- reader.PyEntries(nf.value);
    var instrs :- reader.PyInstrs(ni.value);
    var consts :- reader.PyConsts(nc.value);
    r := W.Got(Executable(funcs.value, instrs.value, consts.value), reader.pos);
  }
}

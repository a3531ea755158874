/** What was written is read back, by both readers (python/devproc2/vm/serializer.py,
    runtime/src/vm.cc). */
module FormatRoundTrip {
  import opened Bytecode
  import opened Runtime
  import opened Utf8
  import opened Wire
  import opened Format
  import opened Readers

  // ---------------------------------------------------------------- what C++ gets

  function RawEntryOf(f: FunctionEntry<string>): RawEntry<seq<byte>> {
    RawEntry(Encode(f.name), KindByte(f.kind), f.instrOffset, f.instrCount, f.numRegs, f.numArgs, f.inits,
             Map(Encode, f.paramNames))
  }

  function RawInstrOf(i: Instr): RawInstr {
    RawInstr(OpByte(i.op), i.dst, i.func, i.args, i.launch, i.src, i.cond, i.trueOff, i.falseOff, i.off)
  }

  function Nulled(c: Const): Const {
    if c.Str? then Null else c
  }

  /** The same executable, string constants aside. */
  function RawOf(e: Executable<string>): RawExecutable {
    RawExecutable(Map(RawEntryOf, e.funcs), Map(RawInstrOf, e.instrs), Map(Nulled, e.consts))
  }

  // ---------------------------------------------------------------- items

  lemma ReadsByte(data: seq<byte>, pos: nat, b: byte)
    requires At(data, pos, [b])
    ensures ReadUnsigned(data, pos, 1) == Got(b as nat, pos + 1)
  {
    assert Unsigned(b, 1) == [b];
    ReadsUnsigned(data, pos, b, 1);
  }

  function AsIs<T>(x: T): T {
    x
  }

  lemma {:induction false} MapAsIs<T>(xs: seq<T>)
    ensures Map(AsIs, xs) == xs
  {
  }

  lemma ReadsRegs(data: seq<byte>, rs: seq<int>, pos: nat)
    requires RegsFit(rs) && At(data, pos, EncRegs(rs))
    ensures ReadRegs(data, pos) == Got(rs, pos + |EncRegs(rs)|)
  {
    hide At, Many, All, Unsigned, Signed, ReadSigned, ReadUnsigned, FitsSigned, FitsUnsigned;
    AtParts(data, pos, Unsigned(|rs|, 4), All(EncReg, rs));
    ReadsUnsigned(data, pos, |rs|, 4);
    forall r | r in rs ensures ReadsBack(data, Regs(data), EncReg, AsIs, r) {
      forall p: nat | At(data, p, EncReg(r)) ensures Regs(data)(p) == Got(r, p + |EncReg(r)|) {
        ReadsSigned(data, p, r, 4);
      }
    }
    ReadsMany(data, Regs(data), EncReg, AsIs, rs, pos + 4);
    MapAsIs(rs);
  }

  lemma ReadsInit(data: seq<byte>, pos: nat, ci: ConstInit)
    requires InitFits(ci) && At(data, pos, EncInit(ci))
    ensures ReadInit(data, pos) == Got(ci, pos + |EncInit(ci)|)
  {
    AtParts(data, pos, Signed(ci.reg, 4), Signed(ci.idx, 4));
    ReadsSigned(data, pos, ci.reg, 4);
    ReadsSigned(data, pos + 4, ci.idx, 4);
  }

  lemma {:induction false} ReadsInits(data: seq<byte>, cis: seq<ConstInit>, pos: nat)
    requires (forall ci :: ci in cis ==> InitFits(ci)) && At(data, pos, All(EncInit, cis))
    ensures Many(Inits(data), |cis|, pos) == Got(cis, pos + |All(EncInit, cis)|)
  {
    hide At, All, EncInit, ReadInit, InitFits, Many;
    forall ci | ci in cis ensures ReadsBack(data, Inits(data), EncInit, AsIs, ci) {
      forall p: nat | At(data, p, EncInit(ci)) ensures Inits(data)(p) == Got(ci, p + |EncInit(ci)|) {
        ReadsInit(data, p, ci);
      }
    }
    ReadsMany(data, Inits(data), EncInit, AsIs, cis, pos);
    MapAsIs(cis);
  }

  lemma {:induction false} TextAt(data: seq<byte>, pos: nat, s: string)
    requires TextFits(s) && At(data, pos, EncText(s))
    ensures ReadUnsigned(data, pos, 4) == Got(|Encode(s)|, pos + 4)
    ensures At(data, pos + 4, Encode(s))
  {
    AtParts(data, pos, Unsigned(|Encode(s)|, 4), Encode(s));
    ReadsUnsigned(data, pos, |Encode(s)|, 4);
  }

  lemma {:induction false} CppReadsText(data: seq<byte>, pos: nat, s: string)
    requires TextFits(s) && At(data, pos, EncText(s))
    ensures CppText(data, pos) == Got(Encode(s), pos + |EncText(s)|)
  {
    hide ReadUnsigned, Unsigned, Encode, FitsUnsigned;
    TextAt(data, pos, s);
  }

  lemma PyReadsText(data: seq<byte>, pos: nat, s: string)
    requires TextFits(s) && At(data, pos, EncText(s))
    ensures PyText(data, pos) == Got(s, pos + |EncText(s)|)
  {
    hide ReadUnsigned, Unsigned, Encode, Decode, FitsUnsigned;
    TextAt(data, pos, s);
    DecodeEncode(s);
  }

  lemma {:induction false} CppReadsTexts(data: seq<byte>, ss: seq<string>, pos: nat)
    requires (forall s :: s in ss ==> TextFits(s)) && At(data, pos, All(EncText, ss))
    ensures Many(CppTexts(data), |ss|, pos) == Got(Map(Encode, ss), pos + |All(EncText, ss)|)
  {
    forall s | s in ss ensures ReadsBack(data, CppTexts(data), EncText, Encode, s) {
      forall p: nat | At(data, p, EncText(s)) ensures CppTexts(data)(p) == Got(Encode(s), p + |EncText(s)|) {
        CppReadsText(data, p, s);
      }
    }
    ReadsMany(data, CppTexts(data), EncText, Encode, ss, pos);
  }

  lemma {:induction false} PyReadsTexts(data: seq<byte>, ss: seq<string>, pos: nat)
    requires (forall s :: s in ss ==> TextFits(s)) && At(data, pos, All(EncText, ss))
    ensures Many(PyTexts(data), |ss|, pos) == Got(ss, pos + |All(EncText, ss)|)
  {
    forall s | s in ss ensures ReadsBack(data, PyTexts(data), EncText, AsIs, s) {
      forall p: nat | At(data, p, EncText(s)) ensures PyTexts(data)(p) == Got(s, p + |EncText(s)|) {
        PyReadsText(data, p, s);
      }
    }
    ReadsMany(data, PyTexts(data), EncText, AsIs, ss, pos);
    MapAsIs(ss);
  }

  // ---------------------------------------------------------------- function entries

  function EncFields(f: FunctionEntry<string>): seq<byte> {
    [KindByte(f.kind)] + (Signed(f.instrOffset, 4) +
                          (Signed(f.instrCount, 4) + (Signed(f.numRegs, 4) + (Signed(f.numArgs, 4) +
    (Signed(|f.inits|, 4) + (All(EncInit, f.inits) + Unsigned(|f.paramNames|, 4)))))))
  }

  /** An entry is its name, its fields and its parameter names. */
  lemma EntryParts(f: FunctionEntry<string>)
    ensures EncEntry(f) == EncText(f.name) + (EncFields(f) + All(EncText, f.paramNames))
  {
    hide EncInit, EncText, KindByte, All, Signed, Unsigned;
    var names := All(EncText, f.paramNames);
    var a, b, c, d := [KindByte(f.kind)], Signed(f.instrOffset, 4), Signed(f.instrCount, 4), Signed(f.numRegs, 4);
    var g, h, i, j := Signed(f.numArgs, 4), Signed(|f.inits|, 4), All(EncInit, f.inits), Unsigned(|f.paramNames|, 4);
    assert (a + (b + (c + (d + (g + (h + (i + j))))))) + names == a + (b + (c + (d + (g + (h + (i + (j + names)))))));
  }

  function FieldsOf(f: FunctionEntry<string>): Fields {
    Fields(KindByte(f.kind), f.instrOffset, f.instrCount, f.numRegs, f.numArgs, f.inits, |f.paramNames|)
  }

  /** Where the fields of an entry are. */
  predicate FieldsAt(data: seq<byte>, pos: nat, f: FunctionEntry<string>) {
    && At(data, pos, [KindByte(f.kind)]) && At(data, pos + 1, Signed(f.instrOffset, 4))
    && At(data, pos + 5, Signed(f.instrCount, 4)) && At(data, pos + 9, Signed(f.numRegs, 4))
    && At(data, pos + 13, Signed(f.numArgs, 4)) && At(data, pos + 17, Signed(|f.inits|, 4))
    && At(data, pos + 21, All(EncInit, f.inits))
    && At(data, pos + 21 + |All(EncInit, f.inits)|, Unsigned(|f.paramNames|, 4))
  }

  lemma FieldsParts(data: seq<byte>, pos: nat, f: FunctionEntry<string>)
    requires At(data, pos, EncFields(f))
    ensures FieldsAt(data, pos, f) && |EncFields(f)| == 25 + |All(EncInit, f.inits)|
  {
    hide At, All, Signed, Unsigned, KindByte, EncInit;
    var n8 := Unsigned(|f.paramNames|, 4);
    var n7 := All(EncInit, f.inits) + n8;
    var n6 := Signed(|f.inits|, 4) + n7;
    var n5 := Signed(f.numArgs, 4) + n6;
    var n4 := Signed(f.numRegs, 4) + n5;
    var n3 := Signed(f.instrCount, 4) + n4;
    var n2 := Signed(f.instrOffset, 4) + n3;
    AtParts(data, pos, [KindByte(f.kind)], n2);
    AtParts(data, pos + 1, Signed(f.instrOffset, 4), n3);
    AtParts(data, pos + 5, Signed(f.instrCount, 4), n4);
    AtParts(data, pos + 9, Signed(f.numRegs, 4), n5);
    AtParts(data, pos + 13, Signed(f.numArgs, 4), n6);
    AtParts(data, pos + 17, Signed(|f.inits|, 4), n7);
    AtParts(data, pos + 21, All(EncInit, f.inits), n8);
  }

  lemma ReadsFields(h: Host, data: seq<byte>, pos: nat, f: FunctionEntry<string>)
    requires EntryFits(f) && At(data, pos, EncFields(f))
    ensures ReadFields(h, data, pos) == Got(FieldsOf(f), pos + |EncFields(f)|)
  {
    hide EncInit, EncFields, EntryFits, InitFits, KindByte, TextFits, Inits, All, At, FitsSigned, FitsUnsigned, Many,
         Range, ReadSigned, ReadUnsigned, Signed, Unsigned;
    FieldsParts(data, pos, f);
    EntryFitsParts(f);
    ReadsByte(data, pos, KindByte(f.kind));
    ReadsSigned(data, pos + 1, f.instrOffset, 4);
    ReadsSigned(data, pos + 5, f.instrCount, 4);
    ReadsSigned(data, pos + 9, f.numRegs, 4);
    ReadsSigned(data, pos + 13, f.numArgs, 4);
    ReadsSigned(data, pos + 17, |f.inits|, 4);
    ReadsInits(data, f.inits, pos + 21);
    ReadsUnsigned(data, pos + 21 + |All(EncInit, f.inits)|, |f.paramNames|, 4);
  }

  lemma EntryFitsParts(f: FunctionEntry<string>)
    requires EntryFits(f)
    ensures FitsSigned(f.instrOffset, 4) && FitsSigned(f.instrCount, 4) && FitsSigned(f.numRegs, 4)
    ensures FitsSigned(f.numArgs, 4)
    ensures FitsSigned(|f.inits|, 4) && FitsUnsigned(|f.paramNames|, 4) && TextFits(f.name)
    ensures forall ci :: ci in f.inits ==> InitFits(ci)
    ensures forall s :: s in f.paramNames ==> TextFits(s)
  {
  }

  lemma EntryAt(h: Host, data: seq<byte>, pos: nat, f: FunctionEntry<string>)
    requires EntryFits(f) && At(data, pos, EncEntry(f))
    ensures At(data, pos, EncText(f.name)) && At(data, pos + |EncText(f.name)|, EncFields(f))
    ensures ReadFields(h, data, pos + |EncText(f.name)|) == Got(FieldsOf(f), pos + |EncText(f.name)| + |EncFields(f)|)
    ensures At(data, pos + |EncText(f.name)| + |EncFields(f)|, All(EncText, f.paramNames))
    ensures |EncEntry(f)| == |EncText(f.name)| + |EncFields(f)| + |All(EncText, f.paramNames)|
  {
    hide *;
    EntryParts(f);
    AtParts(data, pos, EncText(f.name), EncFields(f) + All(EncText, f.paramNames));
    AtParts(data, pos + |EncText(f.name)|, EncFields(f), All(EncText, f.paramNames));
    ReadsFields(h, data, pos + |EncText(f.name)|, f);
  }

  lemma CppReadsEntry(data: seq<byte>, pos: nat, f: FunctionEntry<string>)
    requires EntryFits(f) && At(data, pos, EncEntry(f))
    ensures CppEntry(data, pos) == Got(RawEntryOf(f), pos + |EncEntry(f)|)
  {
    hide EncEntry, EncText, EntryFits, InitFits, KindByte, TextFits, EncFields, CppText, CppTexts, ReadFields,
         Encode, All, At, FitsSigned, FitsUnsigned, Many, Map;
    EntryAt(Cpp, data, pos, f);
    EntryFitsParts(f);
    CppReadsText(data, pos, f.name);
    CppReadsTexts(data, f.paramNames, pos + |EncText(f.name)| + |EncFields(f)|);
  }

  lemma PyReadsEntry(data: seq<byte>, pos: nat, f: FunctionEntry<string>)
    requires EntryFits(f) && At(data, pos, EncEntry(f))
    ensures PyEntry(data, pos) == Got(f, pos + |EncEntry(f)|)
  {
    hide EncEntry, EncText, EntryFits, InitFits, TextFits, EncFields, PyText, PyTexts, ReadFields, All, At,
         FitsSigned, FitsUnsigned, Many;
    EntryAt(Py, data, pos, f);
    EntryFitsParts(f);
    PyReadsText(data, pos, f.name);
    PyReadsTexts(data, f.paramNames, pos + |EncText(f.name)| + |EncFields(f)|);
  }

  // ---------------------------------------------------------------- instructions

  /** Where the fields of an instruction are. */
  predicate InstrAt(data: seq<byte>, pos: nat, i: Instr) {
    && At(data, pos, [OpByte(i.op)]) && At(data, pos + 1, Signed(i.dst, 4)) && At(data, pos + 5, Signed(i.func, 4))
    && At(data, pos + 9, Signed(i.src, 4)) && At(data, pos + 13, Signed(i.cond, 4))
    && At(data, pos + 17, Signed(i.trueOff, 4)) && At(data, pos + 21, Signed(i.falseOff, 4))
    && At(data, pos + 25, Signed(i.off, 4)) && At(data, pos + 29, EncRegs(i.args))
    && At(data, pos + 29 + |EncRegs(i.args)|, EncRegs(i.launch))
  }

  lemma InstrParts(data: seq<byte>, pos: nat, i: Instr)
    requires At(data, pos, EncInstr(i))
    ensures InstrAt(data, pos, i) && |EncInstr(i)| == 29 + |EncRegs(i.args)| + |EncRegs(i.launch)|
  {
    hide At, Signed, EncRegs, OpByte;
    var n10 := EncRegs(i.launch);
    var n9 := EncRegs(i.args) + n10;
    var n8 := Signed(i.off, 4) + n9;
    var n7 := Signed(i.falseOff, 4) + n8;
    var n6 := Signed(i.trueOff, 4) + n7;
    var n5 := Signed(i.cond, 4) + n6;
    var n4 := Signed(i.src, 4) + n5;
    var n3 := Signed(i.func, 4) + n4;
    var n2 := Signed(i.dst, 4) + n3;
    AtParts(data, pos, [OpByte(i.op)], n2);
    AtParts(data, pos + 1, Signed(i.dst, 4), n3);
    AtParts(data, pos + 5, Signed(i.func, 4), n4);
    AtParts(data, pos + 9, Signed(i.src, 4), n5);
    AtParts(data, pos + 13, Signed(i.cond, 4), n6);
    AtParts(data, pos + 17, Signed(i.trueOff, 4), n7);
    AtParts(data, pos + 21, Signed(i.falseOff, 4), n8);
    AtParts(data, pos + 25, Signed(i.off, 4), n9);
    AtParts(data, pos + 29, EncRegs(i.args), n10);
  }

  lemma ReadsInstr(data: seq<byte>, pos: nat, i: Instr)
    requires InstrFits(i) && At(data, pos, EncInstr(i))
    ensures ReadInstr(data, pos) == Got(RawInstrOf(i), pos + |EncInstr(i)|)
  {
    hide EncRegs, EncInstr, OpByte, RegsFit, ReadRegs, At, FitsSigned, ReadSigned, ReadUnsigned, Signed;
    InstrParts(data, pos, i);
    ReadsByte(data, pos, OpByte(i.op));
    ReadsSigned(data, pos + 1, i.dst, 4);
    ReadsSigned(data, pos + 5, i.func, 4);
    ReadsSigned(data, pos + 9, i.src, 4);
    ReadsSigned(data, pos + 13, i.cond, 4);
    ReadsSigned(data, pos + 17, i.trueOff, 4);
    ReadsSigned(data, pos + 21, i.falseOff, 4);
    ReadsSigned(data, pos + 25, i.off, 4);
    ReadsRegs(data, i.args, pos + 29);
    ReadsRegs(data, i.launch, pos + 29 + |EncRegs(i.args)|);
  }

  lemma PyReadsInstr(data: seq<byte>, pos: nat, i: Instr)
    requires InstrFits(i) && At(data, pos, EncInstr(i))
    ensures PyInstr(data, pos) == Got(i, pos + |EncInstr(i)|)
  {
    hide EncInstr, InstrFits, ReadInstr, At;
    ReadsInstr(data, pos, i);
  }

  // ---------------------------------------------------------------- constants

  lemma ReadsScalar(data: seq<byte>, pos: nat, c: Const)
    requires ConstFits(c) && !c.Str? && At(data, pos, EncConst(c))
    ensures ReadUnsigned(data, pos, 1) == Got(EncConst(c)[0] as nat, pos + 1)
    ensures ReadScalar(data, EncConst(c)[0], pos + 1) == Got(c, pos + |EncConst(c)|)
  {
    AtParts(data, pos, EncConst(c)[..1], EncConst(c)[1..]);
    ReadsByte(data, pos, EncConst(c)[0]);
    match c
    case Null =>
    case Int(i) => ReadsSigned(data, pos + 1, i, 8);
    case Float(bits) => ReadsUnsigned(data, pos + 1, bits, 8);
    case Bool(b) => ReadsSigned(data, pos + 1, if b then 1 else 0, 8);
  }

  lemma CppReadsConst(data: seq<byte>, pos: nat, c: Const)
    requires ConstFits(c) && At(data, pos, EncConst(c))
    ensures CppConst(data, pos) == Got(Nulled(c), pos + |EncConst(c)|)
  {
    if c.Str? {
      AtParts(data, pos, [TAG_STR], EncText(c.s));
      ReadsByte(data, pos, TAG_STR);
      CppReadsText(data, pos + 1, c.s);
    } else {
      ReadsScalar(data, pos, c);
    }
  }

  lemma PyReadsConst(data: seq<byte>, pos: nat, c: Const)
    requires ConstFits(c) && At(data, pos, EncConst(c))
    ensures PyConst(data, pos) == Got(c, pos + |EncConst(c)|)
  {
    if c.Str? {
      AtParts(data, pos, [TAG_STR], EncText(c.s));
      ReadsByte(data, pos, TAG_STR);
      PyReadsText(data, pos + 1, c.s);
    } else {
      ReadsScalar(data, pos, c);
    }
  }

  // ---------------------------------------------------------------- whole files

  function CountsOf(e: Executable<string>): Counts {
    Counts(|e.funcs|, |e.instrs|, |e.consts|)
  }

  function HeaderOf(e: Executable<string>): seq<byte> {
    EncHeader(|e.funcs|, |e.instrs|, |e.consts|)
  }

  lemma ReadsHeader(data: seq<byte>, e: Executable<string>)
    requires Fits(e) && At(data, 0, HeaderOf(e))
    ensures CppCounts(data) == PyCounts(data) == Got(CountsOf(e), |HeaderOf(e)|)
  {
    var n4 := Unsigned(|e.consts|, 4);
    var n3 := Unsigned(|e.instrs|, 4) + n4;
    var n2 := Unsigned(|e.funcs|, 4) + n3;
    AtParts(data, 0, MAGIC, Unsigned(VERSION, 4) + n2);
    AtParts(data, 4, Unsigned(VERSION, 4), n2);
    AtParts(data, 8, Unsigned(|e.funcs|, 4), n3);
    AtParts(data, 12, Unsigned(|e.instrs|, 4), n4);
    assert FitsUnsigned(VERSION, 4) by { assert Range(1) == 256 && Range(2) > 3 && Range(3) > 3 && Range(4) > 3; }
    hide Unsigned, FitsUnsigned, Fits, ReadUnsigned;
    FitsCounts(e);
    ReadsUnsigned(data, 4, VERSION, 4);
    ReadsUnsigned(data, 8, |e.funcs|, 4);
    ReadsUnsigned(data, 12, |e.instrs|, 4);
    ReadsUnsigned(data, 16, |e.consts|, 4);
  }

  lemma FitsCounts(e: Executable<string>)
    requires Fits(e)
    ensures FitsUnsigned(|e.funcs|, 4) && FitsUnsigned(|e.instrs|, 4) && FitsUnsigned(|e.consts|, 4)
    ensures forall f :: f in e.funcs ==> EntryFits(f)
    ensures forall i :: i in e.instrs ==> InstrFits(i)
    ensures forall c :: c in e.consts ==> ConstFits(c)
  {
  }

  /** Where the parts of a file are. */
  lemma FileParts(data: seq<byte>, e: Executable<string>)
    requires At(data, 0, Enc(e))
    ensures At(data, 0, HeaderOf(e))
    ensures At(data, |HeaderOf(e)|, All(EncEntry, e.funcs))
    ensures At(data, |HeaderOf(e)| + |All(EncEntry, e.funcs)|, All(EncInstr, e.instrs))
    ensures At(data, |HeaderOf(e)| + |All(EncEntry, e.funcs)| + |All(EncInstr, e.instrs)|, All(EncConst, e.consts))
    ensures |Enc(e)| == |HeaderOf(e)| + |All(EncEntry, e.funcs)| + |All(EncInstr, e.instrs)| + |All(EncConst, e.consts)|
  {
    hide EncConst, EncEntry, EncHeader, EncInstr, All, At;
    var h, a, b, c := HeaderOf(e), All(EncEntry, e.funcs), All(EncInstr, e.instrs), All(EncConst, e.consts);
    AtParts(data, 0, h, a + (b + c));
    AtParts(data, |h|, a, b + c);
    AtParts(data, |h| + |a|, b, c);
  }

  /** Python reads back what Python wrote, whatever follows it. */
  lemma PyReadsBack(e: Executable<string>, rest: seq<byte>)
    requires Fits(e)
    ensures PyDeserialize(Enc(e) + rest) == Got(e, |Enc(e)|)
  {
    hide ConstFits, Enc, EncConst, EncEntry, EncInstr, EntryFits, Fits, InstrFits, HeaderOf, CppCounts, PyConst,
         PyCounts, PyEntry, PyInstr, All, At, FitsUnsigned, Many, Map;
    var data := Enc(e) + rest;
    AtStart(Enc(e), rest);
    FileParts(data, e);
    FitsCounts(e);
    ReadsHeader(data, e);
    forall f | f in e.funcs ensures ReadsBack(data, PyEntries(data), EncEntry, AsIs, f) {
      forall p: nat | At(data, p, EncEntry(f))
        ensures PyEntries(data)(p) == Got(f, p + |EncEntry(f)|) { PyReadsEntry(data, p, f); }
    }
    forall i | i in e.instrs ensures ReadsBack(data, PyInstrs(data), EncInstr, AsIs, i) {
      forall p: nat | At(data, p, EncInstr(i))
        ensures PyInstrs(data)(p) == Got(i, p + |EncInstr(i)|) { PyReadsInstr(data, p, i); }
    }
    forall c | c in e.consts ensures ReadsBack(data, PyConsts(data), EncConst, AsIs, c) {
      forall p: nat | At(data, p, EncConst(c))
        ensures PyConsts(data)(p) == Got(c, p + |EncConst(c)|) { PyReadsConst(data, p, c); }
    }
    var p1 := |HeaderOf(e)|;
    var p2 := p1 + |All(EncEntry, e.funcs)|;
    var p3 := p2 + |All(EncInstr, e.instrs)|;
    ReadsMany(data, PyEntries(data), EncEntry, AsIs, e.funcs, p1);
    ReadsMany(data, PyInstrs(data), EncInstr, AsIs, e.instrs, p2);
    ReadsMany(data, PyConsts(data), EncConst, AsIs, e.consts, p3);
    MapAsIs(e.funcs);
    MapAsIs(e.instrs);
    MapAsIs(e.consts);
  }

  /** C++ reads the same executable, with every string constant null. */
  lemma CppReadsBack(e: Executable<string>, rest: seq<byte>)
    requires Fits(e)
    ensures CppDeserialize(Enc(e) + rest) == Got(RawOf(e), |Enc(e)|)
  {
    hide ConstFits, Enc, EncConst, EncEntry, EncInstr, EntryFits, Fits, InstrFits, HeaderOf, Nulled, RawEntryOf,
         RawInstrOf, CppConst, CppCounts, CppEntry, PyCounts, ReadInstr, All, At, FitsUnsigned, Many, Map;
    var data := Enc(e) + rest;
    AtStart(Enc(e), rest);
    FileParts(data, e);
    FitsCounts(e);
    ReadsHeader(data, e);
    forall f | f in e.funcs ensures ReadsBack(data, CppEntries(data), EncEntry, RawEntryOf, f) {
      forall p: nat | At(data, p, EncEntry(f))
        ensures CppEntries(data)(p) == Got(RawEntryOf(f), p + |EncEntry(f)|) { CppReadsEntry(data, p, f); }
    }
    forall i | i in e.instrs ensures ReadsBack(data, Instrs(data), EncInstr, RawInstrOf, i) {
      forall p: nat | At(data, p, EncInstr(i))
        ensures Instrs(data)(p) == Got(RawInstrOf(i), p + |EncInstr(i)|) { ReadsInstr(data, p, i); }
    }
    forall c | c in e.consts ensures ReadsBack(data, CppConsts(data), EncConst, Nulled, c) {
      forall p: nat | At(data, p, EncConst(c))
        ensures CppConsts(data)(p) == Got(Nulled(c), p + |EncConst(c)|) { CppReadsConst(data, p, c); }
    }
    var p1 := |HeaderOf(e)|;
    var p2 := p1 + |All(EncEntry, e.funcs)|;
    var p3 := p2 + |All(EncInstr, e.instrs)|;
    ReadsMany(data, CppEntries(data), EncEntry, RawEntryOf, e.funcs, p1);
    ReadsMany(data, Instrs(data), EncInstr, RawInstrOf, e.instrs, p2);
    ReadsMany(data, CppConsts(data), EncConst, Nulled, e.consts, p3);
  }
}

/** The two readers of the bytecode file (python/devproc2/vm/serializer.py, runtime/src/vm.cc).

    They differ in how they take a string: Python slices, and a slice past the end is silently
    shorter; C++ checks the length but not the text.  Python also checks enumerations, and the
    two disagree on a negative number of constant registers. */
module Readers {
  import opened Bytecode
  import opened Runtime
  import opened Utf8
  import opened Wire
  import opened Format

  datatype RawEntry<N> = RawEntry(
    name: N, kind: nat,
    instrOffset: int, instrCount: int,
    numRegs: int, numArgs: int,
    inits: seq<ConstInit>, paramNames: seq<N>)

  datatype RawInstr = RawInstr(
    op: nat,
    dst: int, func: int, args: seq<int>, launch: seq<int>,
    src: int,
    cond: int, trueOff: int, falseOff: int,
    off: int)

  /** What the C++ reader builds: enumerators are cast, not checked. */
  datatype RawExecutable = RawExecutable(
    funcs: seq<RawEntry<seq<byte>>>,
    instrs: seq<RawInstr>,
    consts: seq<Const>)

  // ---------------------------------------------------------------- common parts

  function Min(a: nat, b: nat): nat {
    if a <= b then a else b
  }

  function ReadInit(data: seq<byte>, pos: nat): Read<ConstInit> {
    var reg :- ReadSigned(data, pos, 4);
    var idx :- ReadSigned(data, reg.next, 4);
    Got(ConstInit(reg.value, idx.value), idx.next)
  }

  function Inits(data: seq<byte>): nat -> Read<ConstInit> {
    (p: nat) => ReadInit(data, p)
  }

  function Regs(data: seq<byte>): nat -> Read<int> {
    (p: nat) => ReadSigned(data, p, 4)
  }

  function ReadRegs(data: seq<byte>, pos: nat): Read<seq<int>> {
    var n :- ReadUnsigned(data, pos, 4);
    Many(Regs(data), n.value, n.next)
  }

  /** A signed count drives Python's `range`; C++ casts it to unsigned. */
  function InitCount(h: Host, n: int): nat {
    if n >= 0 then n else if h == Py then 0 else if n + Range(4) >= 0 then n + Range(4) else 0
  }

  datatype Fields = Fields(kind: nat, instrOffset: int, instrCount: int, numRegs: int, numArgs: int,
                           inits: seq<ConstInit>, names: nat)

  /** A function entry between its name and its parameter names. */
  function ReadFields(h: Host, data: seq<byte>, pos: nat): Read<Fields> {
    var kind :- ReadUnsigned(data, pos, 1);
    var offset :- ReadSigned(data, kind.next, 4);
    var count :- ReadSigned(data, offset.next, 4);
    var regs :- ReadSigned(data, count.next, 4);
    var args :- ReadSigned(data, regs.next, 4);
    var n :- ReadSigned(data, args.next, 4);
    var inits :- Many(Inits(data), InitCount(h, n.value), n.next);
    var names :- ReadUnsigned(data, inits.next, 4);
    Got(Fields(kind.value, offset.value, count.value, regs.value, args.value, inits.value, names.value), names.next)
  }

  lemma {:induction false} InitsTake(data: seq<byte>, n: nat, pos: nat)
    ensures var r := Many(Inits(data), n, pos); r.Got? ==> r.next == pos + 8 * n && (n > 0 ==> r.next <= |data|)
    decreases n
  {
    if n > 0 { InitsTake(data, n - 1, pos); }
  }

  lemma {:induction false} NegativeField(bs: seq<byte>)
    requires |bs| == 4 && FromSigned(bs) < 0
    ensures 0x8000_0000 <= FromSigned(bs) + Range(4)
  {
    FromUnsignedFits(bs);
  }

  /** What a negative number of constant registers leads to: Python reads none, C++ looks for at least two to the 31st
      of them and runs out of data. */
  lemma NegativeCounts(data: seq<byte>, pos: nat)
    requires pos + 21 <= |data| < 8 * 0x8000_0000 && FromSigned(data[pos + 17..pos + 21]) < 0
    ensures ReadFields(Py, data, pos).Got? ==> ReadFields(Py, data, pos).value.inits == []
    ensures ReadFields(Cpp, data, pos).Bad?
  {
    hide Many, FromSigned, FromUnsigned;
    var n := FromSigned(data[pos + 17..pos + 21]);
    NegativeField(data[pos + 17..pos + 21]);
    InitsTake(data, InitCount(Cpp, n), pos + 21);
    InitsTake(data, 0, pos + 21);
    ManyNone(Inits(data), pos + 21);
  }

  function EntryOf<N>(name: N, f: Fields, names: seq<N>): RawEntry<N> {
    RawEntry(name, f.kind, f.instrOffset, f.instrCount, f.numRegs, f.numArgs, f.inits, names)
  }

  function ReadInstr(data: seq<byte>, pos: nat): Read<RawInstr> {
    var op :- ReadUnsigned(data, pos, 1);
    var dst :- ReadSigned(data, op.next, 4);
    var func :- ReadSigned(data, dst.next, 4);
    var src :- ReadSigned(data, func.next, 4);
    var cond :- ReadSigned(data, src.next, 4);
    var ifTrue :- ReadSigned(data, cond.next, 4);
    var ifFalse :- ReadSigned(data, ifTrue.next, 4);
    var off :- ReadSigned(data, ifFalse.next, 4);
    var args :- ReadRegs(data, off.next);
    var launch :- ReadRegs(data, args.next);
    Got(RawInstr(op.value, dst.value, func.value, args.value, launch.value, src.value, cond.value, ifTrue.value,
                 ifFalse.value, off.value),
        launch.next)
  }

  /** A constant that is not a string, after its tag. */
  function ReadScalar(data: seq<byte>, tag: nat, pos: nat): Read<Const> {
    if tag == TAG_NULL then
      var pad :- ReadBytes(data, pos, 8);
      Got(Null, pad.next)
    else if tag == TAG_INT then
      var v :- ReadSigned(data, pos, 8);
      Got(Int(v.value), v.next)
    else if tag == TAG_FLOAT then
      var v :- ReadUnsigned(data, pos, 8);
      Got(Float(v.value), v.next)
    else if tag == TAG_BOOL then
      var v :- ReadSigned(data, pos, 8);
      Got(Bool(v.value != 0), v.next)
    else Bad(BadTag(tag))
  }

  function ReadMagic(data: seq<byte>): Read<()> {
    if data[..Min(4, |data|)] == MAGIC then Got((), 4) else Bad(BadMagic)
  }

  datatype Counts = Counts(funcs: nat, instrs: nat, consts: nat)

  // ---------------------------------------------------------------- C++

  function CppText(data: seq<byte>, pos: nat): Read<seq<byte>> {
    var n :- ReadUnsigned(data, pos, 4);
    ReadBytes(data, n.next, n.value)
  }

  function CppTexts(data: seq<byte>): nat -> Read<seq<byte>> {
    (p: nat) => CppText(data, p)
  }

  function CppEntry(data: seq<byte>, pos: nat): Read<RawEntry<seq<byte>>> {
    var name :- CppText(data, pos);
    var fields :- ReadFields(Cpp, data, name.next);
    var names :- Many(CppTexts(data), fields.value.names, fields.next);
    Got(EntryOf(name.value, fields.value, names.value), names.next)
  }

  /** A string constant is skipped and becomes null. */
  function CppConst(data: seq<byte>, pos: nat): Read<Const> {
    var tag :- ReadUnsigned(data, pos, 1);
    if tag.value == TAG_STR then
      var s :- CppText(data, tag.next);
      Got(Null, s.next)
    else ReadScalar(data, tag.value, tag.next)
  }

  function CppEntries(data: seq<byte>): nat -> Read<RawEntry<seq<byte>>> {
    (p: nat) => CppEntry(data, p)
  }

  function Instrs(data: seq<byte>): nat -> Read<RawInstr> {
    (p: nat) => ReadInstr(data, p)
  }

  function CppConsts(data: seq<byte>): nat -> Read<Const> {
    (p: nat) => CppConst(data, p)
  }

  function CppCounts(data: seq<byte>): Read<Counts> {
    var magic :- ReadMagic(data);
    var version :- ReadUnsigned(data, magic.next, 4);
    var nf :- ReadUnsigned(data, version.next, 4);
    var ni :- ReadUnsigned(data, nf.next, 4);
    var nc :- ReadUnsigned(data, ni.next, 4);
    if version.value != VERSION then Bad(BadVersion(version.value))
    else Got(Counts(nf.value, ni.value, nc.value), nc.next)
  }

  function CppBody(data: seq<byte>, n: Counts, pos: nat): Read<RawExecutable> {
    var funcs :- Many(CppEntries(data), n.funcs, pos);
    var instrs :- Many(Instrs(data), n.instrs, funcs.next);
    var consts :- Many(CppConsts(data), n.consts, instrs.next);
    Got(RawExecutable(funcs.value, instrs.value, consts.value), consts.next)
  }

  function CppDeserialize(data: seq<byte>): Read<RawExecutable> {
    var n :- CppCounts(data);
    CppBody(data, n.value, n.next)
  }

  // ---------------------------------------------------------------- Python

  /** The position moves on by the announced length whatever the slice held. */
  function PyText(data: seq<byte>, pos: nat): Read<string> {
    var n :- ReadUnsigned(data, pos, 4);
    match Decode(data[Min(n.next, |data|)..Min(n.next + n.value, |data|)])
    case None => Bad(BadText)
    case Some(s) => Got(s, n.next + n.value)
  }

  function PyTexts(data: seq<byte>): nat -> Read<string> {
    (p: nat) => PyText(data, p)
  }

  function KindOf(b: nat): Option<CalleeKind> {
    if b == 0 then Some(VMFunc) else if b == 1 then Some(Builtin) else if b == 2 then Some(PackedFunc)
    else if b == 3 then Some(Kernel) else None
  }

  function OpOf(b: nat): Option<Opcode> {
    if b == 0 then Some(CALL) else if b == 1 then Some(RET) else if b == 2 then Some(IF)
    else if b == 3 then Some(GOTO) else None
  }

  function PyEntry(data: seq<byte>, pos: nat): Read<FunctionEntry<string>> {
    var name :- PyText(data, pos);
    var fields :- ReadFields(Py, data, name.next);
    var names :- Many(PyTexts(data), fields.value.names, fields.next);
    var f := fields.value;
    match KindOf(f.kind)
    case None => Bad(BadKind(f.kind))
    case Some(kind) =>
      Got(FunctionEntry(name.value, kind, f.instrOffset, f.instrCount, f.numRegs, f.numArgs, f.inits, names.value),
          names.next)
  }

  function PyInstr(data: seq<byte>, pos: nat): Read<Instr> {
    var raw :- ReadInstr(data, pos);
    var i := raw.value;
    match OpOf(i.op)
    case None => Bad(BadOpcode(i.op))
    case Some(op) => Got(Instr(op, i.dst, i.func, i.args, i.launch, i.src, i.cond, i.trueOff, i.falseOff, i.off),
                         raw.next)
  }

  function PyConst(data: seq<byte>, pos: nat): Read<Const> {
    var tag :- ReadUnsigned(data, pos, 1);
    if tag.value == TAG_STR then
      var s :- PyText(data, tag.next);
      Got(Str(s.value), s.next)
    else ReadScalar(data, tag.value, tag.next)
  }

  function PyEntries(data: seq<byte>): nat -> Read<FunctionEntry<string>> {
    (p: nat) => PyEntry(data, p)
  }

  function PyInstrs(data: seq<byte>): nat -> Read<Instr> {
    (p: nat) => PyInstr(data, p)
  }

  function PyConsts(data: seq<byte>): nat -> Read<Const> {
    (p: nat) => PyConst(data, p)
  }

  /** The version is checked before the number of constants is read. */
  function PyCounts(data: seq<byte>): Read<Counts> {
    var magic :- ReadMagic(data);
    var version :- ReadUnsigned(data, magic.next, 4);
    var nf :- ReadUnsigned(data, version.next, 4);
    var ni :- ReadUnsigned(data, nf.next, 4);
    if version.value != VERSION then Bad(BadVersion(version.value))
    else
      var nc :- ReadUnsigned(data, ni.next, 4);
      Got(Counts(nf.value, ni.value, nc.value), nc.next)
  }

  function PyBody(data: seq<byte>, n: Counts, pos: nat): Read<Executable<string>> {
    var funcs :- Many(PyEntries(data), n.funcs, pos);
    var instrs :- Many(PyInstrs(data), n.instrs, funcs.next);
    var consts :- Many(PyConsts(data), n.consts, instrs.next);
    Got(Executable(funcs.value, instrs.value, consts.value), consts.next)
  }

  function PyDeserialize(data: seq<byte>): Read<Executable<string>> {
    var n :- PyCounts(data);
    PyBody(data, n.value, n.next)
  }
}

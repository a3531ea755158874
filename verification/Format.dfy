/** The bytecode file: what is written for an executable (python/devproc2/vm/serializer.py). */
module Format {
  import opened Bytecode
  import opened Utf8
  import opened Wire

  const MAGIC: seq<byte> := [0x44, 0x56, 0x32, 0x45]
  const VERSION: nat := 3

  const TAG_NULL: byte := 0
  const TAG_INT: byte := 1
  const TAG_FLOAT: byte := 2
  const TAG_BOOL: byte := 3
  const TAG_STR: byte := 4

  function KindByte(k: CalleeKind): byte {
    match k
    case VMFunc => 0
    case Builtin => 1
    case PackedFunc => 2
    case Kernel => 3
  }

  function OpByte(op: Opcode): byte {
    match op
    case CALL => 0
    case RET => 1
    case IF => 2
    case GOTO => 3
  }

  // ---------------------------------------------------------------- layout

  function EncText(s: string): seq<byte> {
    Unsigned(|Encode(s)|, 4) + Encode(s)
  }

  function EncReg(r: int): seq<byte> {
    Signed(r, 4)
  }

  function EncRegs(rs: seq<int>): seq<byte> {
    Unsigned(|rs|, 4) + All(EncReg, rs)
  }

  function EncInit(ci: ConstInit): seq<byte> {
    Signed(ci.reg, 4) + Signed(ci.idx, 4)
  }

  function EncEntry(f: FunctionEntry<string>): seq<byte> {
    EncText(f.name) + ([KindByte(f.kind)] + (Signed(f.instrOffset, 4) + (Signed(f.instrCount, 4) +
    (Signed(f.numRegs, 4) + (Signed(f.numArgs, 4) + (Signed(|f.inits|, 4) + (All(EncInit, f.inits) +
    (Unsigned(|f.paramNames|, 4) + All(EncText, f.paramNames)))))))))
  }

  function EncInstr(i: Instr): seq<byte> {
    [OpByte(i.op)] + (Signed(i.dst, 4) + (Signed(i.func, 4) + (Signed(i.src, 4) + (Signed(i.cond, 4) +
    (Signed(i.trueOff, 4) + (Signed(i.falseOff, 4) + (Signed(i.off, 4) + (EncRegs(i.args) + EncRegs(i.launch)))))))))
  }

  function EncConst(c: Const): seq<byte> {
    match c
    case Null => [TAG_NULL] + Unsigned(0, 8)
    case Int(i) => [TAG_INT] + Signed(i, 8)
    case Float(bits) => [TAG_FLOAT] + Unsigned(bits, 8)
    case Bool(b) => [TAG_BOOL] + Signed(if b then 1 else 0, 8)
    case Str(s) => [TAG_STR] + EncText(s)
  }

  function EncHeader(nf: nat, ni: nat, nc: nat): seq<byte> {
    MAGIC + (Unsigned(VERSION, 4) + (Unsigned(nf, 4) + (Unsigned(ni, 4) + Unsigned(nc, 4))))
  }

  function Enc(e: Executable<string>): seq<byte> {
    EncHeader(|e.funcs|, |e.instrs|, |e.consts|) +
    (All(EncEntry, e.funcs) + (All(EncInstr, e.instrs) + All(EncConst, e.consts)))
  }

  // ---------------------------------------------------------------- what fits the fields

  predicate TextFits(s: string) {
    FitsUnsigned(|Encode(s)|, 4)
  }

  predicate InitFits(ci: ConstInit) {
    FitsSigned(ci.reg, 4) && FitsSigned(ci.idx, 4)
  }

  predicate RegsFit(rs: seq<int>) {
    FitsUnsigned(|rs|, 4) && forall r :: r in rs ==> FitsSigned(r, 4)
  }

  predicate EntryFits(f: FunctionEntry<string>) {
    && TextFits(f.name)
    && FitsSigned(f.instrOffset, 4) && FitsSigned(f.instrCount, 4)
    && FitsSigned(f.numRegs, 4) && FitsSigned(f.numArgs, 4)
    && FitsSigned(|f.inits|, 4) && (forall ci :: ci in f.inits ==> InitFits(ci))
    && FitsUnsigned(|f.paramNames|, 4) && (forall s :: s in f.paramNames ==> TextFits(s))
  }

  predicate InstrFits(i: Instr) {
    && FitsSigned(i.dst, 4) && FitsSigned(i.func, 4) && FitsSigned(i.src, 4) && FitsSigned(i.cond, 4)
    && FitsSigned(i.trueOff, 4) && FitsSigned(i.falseOff, 4) && FitsSigned(i.off, 4)
    && RegsFit(i.args) && RegsFit(i.launch)
  }

  predicate ConstFits(c: Const) {
    match c
    case Int(i) => FitsSigned(i, 8)
    case Float(bits) => FitsUnsigned(bits, 8)
    case Str(s) => TextFits(s)
    case _ => true
  }

  predicate Fits(e: Executable<string>) {
    && FitsUnsigned(|e.funcs|, 4) && FitsUnsigned(|e.instrs|, 4) && FitsUnsigned(|e.consts|, 4)
    && (forall f :: f in e.funcs ==> EntryFits(f))
    && (forall i :: i in e.instrs ==> InstrFits(i))
    && (forall c :: c in e.consts ==> ConstFits(c))
  }

  // ---------------------------------------------------------------- fixed bytes

  /** Four bytes as a number, lowest first. */
  function Word(bs: seq<int>): int
    requires |bs| == 4
  {
    bs[0] + 0x100 * bs[1] + 0x1_0000 * bs[2] + 0x100_0000 * bs[3]
  }

  lemma {:induction false} FourBytes(n: nat)
    requires FitsUnsigned(n, 4)
    ensures Word(Unsigned(n, 4)) == n
  {
    var bs := Unsigned(n, 4);
    assert bs[1..] == Unsigned(n / 256, 3) && bs[2..] == Unsigned(n / 256 / 256, 2);
    assert bs[3] == n / 256 / 256 / 256 % 256;
  }

  /** Every file begins with the letters DV2E, version 3 and the three counts. */
  lemma HeaderBytes(e: Executable<string>)
    requires Fits(e)
    ensures var bs := Enc(e);
      |bs| >= 20 && bs[..8] == [0x44, 0x56, 0x32, 0x45, 3, 0, 0, 0] &&
      Word(bs[8..12]) == |e.funcs| && Word(bs[12..16]) == |e.instrs| && Word(bs[16..20]) == |e.consts|
  {
    hide All, Word;
    var bs, nf, ni, nc := Enc(e), Unsigned(|e.funcs|, 4), Unsigned(|e.instrs|, 4), Unsigned(|e.consts|, 4);
    FourBytes(|e.funcs|);
    FourBytes(|e.instrs|);
    FourBytes(|e.consts|);
    assert Unsigned(3, 4) == [3, 0, 0, 0] by { assert Unsigned(0, 3) == [0, 0, 0]; }
    assert bs[8..12] == nf && bs[12..16] == ni && bs[16..20] == nc;
  }

  /** A constant begins with its tag and has eight more bytes, or those of its text. */
  lemma ConstBytes(c: Const)
    ensures var bs := EncConst(c);
      |bs| == 1 + (if c.Str? then 4 + |Encode(c.s)| else 8) &&
      bs[0] == match c
        case Null => 0
        case Int(_) => 1
        case Float(_) => 2
        case Bool(_) => 3
        case Str(_) => 4
  {
  }
}

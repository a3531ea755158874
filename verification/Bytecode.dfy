/** The executable format: instructions, function table and constant pool
    (python/devproc2/vm/executable.py, runtime/include/devproc2/runtime/vm.h).

    Names are a type parameter.  Code generation and the two virtual machines only compare
    names for equality; the serializer needs their UTF-8 bytes. */
module Bytecode {

  datatype Option<+T> = None | Some(value: T)

  datatype Opcode = CALL | RET | IF | GOTO

  datatype CalleeKind = VMFunc | Builtin | PackedFunc | Kernel

  /** One instruction record; the fields an opcode does not use keep their defaults. */
  datatype Instr = Instr(
    op: Opcode,
    dst: int, func: int, args: seq<int>, launch: seq<int>,
    src: int,
    cond: int, trueOff: int, falseOff: int,
    off: int)

  function Blank(op: Opcode): Instr {
    Instr(op, -1, 0, [], [], -1, 0, 0, 0, 0)
  }

  function CallInstr(dst: int, func: int, args: seq<int>, launch: seq<int>): Instr {
    Blank(CALL).(dst := dst, func := func, args := args, launch := launch)
  }

  function RetInstr(src: int): Instr {
    Blank(RET).(src := src)
  }

  function IfInstr(cond: int, trueOff: int, falseOff: int): Instr {
    Blank(IF).(cond := cond, trueOff := trueOff, falseOff := falseOff)
  }

  function GotoInstr(off: int): Instr {
    Blank(GOTO).(off := off)
  }

  /** A pooled scalar constant.  A float is its 64-bit IEEE-754 pattern. */
  datatype Const = Null | Int(i: int) | Float(bits: nat) | Bool(b: bool) | Str(s: string)

  const NEGATIVE_ZERO: nat := 0x8000_0000_0000_0000

  predicate IsNaN(bits: nat) {
    var magnitude := bits % NEGATIVE_ZERO;
    magnitude > 0x7FF0_0000_0000_0000
  }

  /** Python's `c == d and type(c) is type(d)`: floats compare by value, so the two zeros are
      equal and a NaN equals nothing; everything else compares structurally. */
  predicate SameConst(c: Const, d: Const) {
    if c.Float? && d.Float? then
      !IsNaN(c.bits) && !IsNaN(d.bits) &&
      (c.bits == d.bits || (c.bits % NEGATIVE_ZERO == 0 && d.bits % NEGATIVE_ZERO == 0 &&
                            c.bits <= NEGATIVE_ZERO && d.bits <= NEGATIVE_ZERO))
    else
      c == d
  }

  datatype ConstInit = ConstInit(reg: int, idx: int)

  datatype FunctionEntry<N> = FunctionEntry(
    name: N, kind: CalleeKind,
    instrOffset: int, instrCount: int,
    numRegs: int, numArgs: int,
    inits: seq<ConstInit>, paramNames: seq<N>)

  datatype Executable<N> = Executable(
    funcs: seq<FunctionEntry<N>>,
    instrs: seq<Instr>,
    consts: seq<Const>)
}

/** Operands of IR ops (python/devproc2/ir/nodes.py).

    An `id` stands for the identity of a Python object: block arguments, op results and
    symbolic dimensions draw their ids from one space. */
module IRValues {
  import opened Bytecode

  datatype Value =
    | Var(id: nat, name: string)
    | Res(id: nat)
    | Imm(c: Const)
}

/** How names are written in a bytecode file, and what they are looked up as when the file is run
    (runtime/src/builtins.cc, python/devproc2/vm/interpreter.py). */
module BuiltinNames {
  import opened Runtime
  import opened Builtins

  const PREFIX := "vm.builtin."

  /** The registered names of the builtins that the compiler emits, after the common prefix. */
  function Short(b: CoreBuiltin): string {
    match b
    case AllocStorage => "alloc_storage"
    case AllocTensor => "alloc_tensor"
    case TensorView => "tensor_view"
    case MakeShape => "make_shape"
    case MakeTuple => "make_tuple"
    case TupleGetItem => "tuple_get_item"
    case Identity => "identity"
    case LtI64 => "lt_i64"
    case AddI64 => "add_i64"
    case SubI64 => "sub_i64"
    case MulI64 => "mul_i64"
    case FloorDivI64 => "floordiv_i64"
    case CeilDivI64 => "ceildiv_i64"
    case MinI64 => "min_i64"
    case MaxI64 => "max_i64"
    case ShapeAssert => "shape_assert"
    case ShapeOf => "shape_of"
    case GetShapeDim => "get_shape_dim"
    case AssertLeI64 => "assert_le_i64"
  }

  function Spell(n: Name): string {
    match n
    case Core(b) => PREFIX + Short(b)
    case Named(s) => s
  }

  ghost predicate IsBuiltinName(s: string) {
    exists b: CoreBuiltin :: Spell(Core(b)) == s
  }

  /** What a name is looked up as. */
  ghost function Meant(s: string): Name {
    if IsBuiltinName(s) then
      var b: CoreBuiltin :| Spell(Core(b)) == s;
      Core(b)
    else Named(s)
  }

  /** Length and two or three characters tell the builtins apart. */
  function Mark(s: string): (nat, char, char, char)
    requires |s| > 5
  {
    (|s|, s[0], s[1], s[5])
  }

  function MarkOf(b: CoreBuiltin): (nat, char, char, char) {
    match b
    case AllocStorage => (13, 'a', 'l', '_')
    case AllocTensor => (12, 'a', 'l', '_')
    case TensorView => (11, 't', 'e', 'r')
    case MakeShape => (10, 'm', 'a', 's')
    case MakeTuple => (10, 'm', 'a', 't')
    case TupleGetItem => (14, 't', 'u', '_')
    case Identity => (8, 'i', 'd', 'i')
    case LtI64 => (6, 'l', 't', '4')
    case AddI64 => (7, 'a', 'd', '6')
    case SubI64 => (7, 's', 'u', '6')
    case MulI64 => (7, 'm', 'u', '6')
    case FloorDivI64 => (12, 'f', 'l', 'd')
    case CeilDivI64 => (11, 'c', 'e', 'i')
    case MinI64 => (7, 'm', 'i', '6')
    case MaxI64 => (7, 'm', 'a', '6')
    case ShapeAssert => (12, 's', 'h', '_')
    case ShapeOf => (8, 's', 'h', '_')
    case GetShapeDim => (13, 'g', 'e', 'h')
    case AssertLeI64 => (13, 'a', 's', 't')
  }

  lemma MarkIs(b: CoreBuiltin)
    ensures |Short(b)| > 5 && Mark(Short(b)) == MarkOf(b)
  {
  }

  lemma MarksDiffer(a: CoreBuiltin, b: CoreBuiltin)
    requires MarkOf(a) == MarkOf(b)
    ensures a == b
  {
  }

  lemma SpellIsOneToOne(a: CoreBuiltin, b: CoreBuiltin)
    requires Spell(Core(a)) == Spell(Core(b))
    ensures a == b
  {
    hide Short, MarkOf, Mark;
    assert Short(a) == Spell(Core(a))[|PREFIX|..] && Short(b) == Spell(Core(b))[|PREFIX|..];
    MarkIs(a);
    MarkIs(b);
    MarksDiffer(a, b);
  }

  /** A packed function that is given the name of a builtin is read back as the builtin. */
  lemma NamesakeIsBuiltin(b: CoreBuiltin)
    ensures Meant(Spell(Named(Spell(Core(b))))) == Core(b)
  {
    hide Short;
    var s := Spell(Core(b));
    assert IsBuiltinName(s);
    var a: CoreBuiltin :| Spell(Core(a)) == s && Meant(s) == Core(a);
    SpellIsOneToOne(a, b);
  }

  /** A name is read back as what it was exactly when it is no other name for a builtin. */
  lemma MeantSpell(n: Name)
    ensures Meant(Spell(n)) == n <==> (n.Named? ==> !IsBuiltinName(n.s))
  {
    hide Short;
    if n.Core? {
      assert IsBuiltinName(Spell(n));
      var b: CoreBuiltin :| Spell(Core(b)) == Spell(n) && Meant(Spell(n)) == Core(b);
      SpellIsOneToOne(b, n.b);
    }
  }
}

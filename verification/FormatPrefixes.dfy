/** Truncated files and files with something behind them (python/devproc2/vm/serializer.py,
    runtime/src/vm.cc). */
module FormatPrefixes {
  import opened Bytecode
  import opened Runtime
  import opened Utf8
  import opened Wire
  import opened Format
  import opened Readers
  import opened FormatRoundTrip

  // ---------------------------------------------------------------- longer data

  lemma RegsAgree(data: seq<byte>, more: seq<byte>, pos: nat)
    ensures Agrees(ReadRegs(data, pos), ReadRegs(data + more, pos), pos, |data|)
    ensures Within(ReadRegs(data, pos), |data|)
  {
    hide ReadSigned, ReadUnsigned, Many;
    forall p: nat ensures Agrees(Regs(data)(p), Regs(data + more)(p), p, |data|) { SignedAgrees(data, more, p, 4); }
    UnsignedAgrees(data, more, pos, 4);
    var n := ReadUnsigned(data, pos, 4);
    FieldWithin(data, pos, 4);
    if n.Got? {
      ManyAgree(Regs(data), Regs(data + more), n.value, n.next, |data|);
      forall p: nat ensures Within(Regs(data)(p), |data|) { FieldWithin(data, p, 4); }
      ManyWithin(Regs(data), n.value, n.next, |data|);
    }
  }

  lemma FieldWithin(data: seq<byte>, pos: nat, n: nat)
    ensures Within(ReadUnsigned(data, pos, n), |data|) && Within(ReadSigned(data, pos, n), |data|)
  {
  }

  lemma {:induction false} InitsAgree(data: seq<byte>, more: seq<byte>, n: nat, pos: nat)
    ensures Agrees(Many(Inits(data), n, pos), Many(Inits(data + more), n, pos), pos, |data|)
  {
    hide ReadSigned;
    forall p: nat ensures Agrees(Inits(data)(p), Inits(data + more)(p), p, |data|) {
      SignedAgrees(data, more, p, 4);
      var reg := ReadSigned(data, p, 4);
      FieldWithin(data, p, 4);
      if reg.Got? {
        SignedAgrees(data, more, reg.next, 4);
      }
    }
    ManyAgree(Inits(data), Inits(data + more), n, pos, |data|);
  }

  lemma FieldsAgree(h: Host, data: seq<byte>, more: seq<byte>, pos: nat)
    ensures Agrees(ReadFields(h, data, pos), ReadFields(h, data + more, pos), pos, |data|)
    ensures Within(ReadFields(h, data, pos), |data|)
  {
    hide InitCount, Inits, Many, ReadSigned, ReadUnsigned;
    if ReadFields(h, data, pos).Got? {
      var kind := ReadUnsigned(data, pos, 1);
      var offset := ReadSigned(data, kind.next, 4);
      var count := ReadSigned(data, offset.next, 4);
      var regs := ReadSigned(data, count.next, 4);
      var args := ReadSigned(data, regs.next, 4);
      var n := ReadSigned(data, args.next, 4);
      var inits := Many(Inits(data), InitCount(h, n.value), n.next);
      UnsignedAgrees(data, more, pos, 1);
      SignedAgrees(data, more, kind.next, 4);
      SignedAgrees(data, more, offset.next, 4);
      SignedAgrees(data, more, count.next, 4);
      SignedAgrees(data, more, regs.next, 4);
      SignedAgrees(data, more, args.next, 4);
      InitsAgree(data, more, InitCount(h, n.value), n.next);
      UnsignedAgrees(data, more, inits.next, 4);
      FieldWithin(data, inits.next, 4);
    }
  }

  lemma InstrAgrees(data: seq<byte>, more: seq<byte>, pos: nat)
    ensures Agrees(ReadInstr(data, pos), ReadInstr(data + more, pos), pos, |data|)
    ensures Within(ReadInstr(data, pos), |data|)
  {
    hide ReadRegs, ReadSigned, ReadUnsigned;
    if ReadInstr(data, pos).Got? {
      var op := ReadUnsigned(data, pos, 1);
      var dst := ReadSigned(data, op.next, 4);
      var func := ReadSigned(data, dst.next, 4);
      var src := ReadSigned(data, func.next, 4);
      var cond := ReadSigned(data, src.next, 4);
      var ifTrue := ReadSigned(data, cond.next, 4);
      var ifFalse := ReadSigned(data, ifTrue.next, 4);
      var off := ReadSigned(data, ifFalse.next, 4);
      var args := ReadRegs(data, off.next);
      UnsignedAgrees(data, more, pos, 1);
      SignedAgrees(data, more, op.next, 4);
      SignedAgrees(data, more, dst.next, 4);
      SignedAgrees(data, more, func.next, 4);
      SignedAgrees(data, more, src.next, 4);
      SignedAgrees(data, more, cond.next, 4);
      SignedAgrees(data, more, ifTrue.next, 4);
      SignedAgrees(data, more, ifFalse.next, 4);
      RegsAgree(data, more, off.next);
      RegsAgree(data, more, args.next);
    }
  }

  lemma CppTextAgrees(data: seq<byte>, more: seq<byte>, pos: nat)
    ensures Agrees(CppText(data, pos), CppText(data + more, pos), pos, |data|)
    ensures Within(CppText(data, pos), |data|)
  {
    hide ReadUnsigned;
    UnsignedAgrees(data, more, pos, 4);
    var n := ReadUnsigned(data, pos, 4);
    if n.Got? { BytesAgree(data, more, n.next, n.value); }
  }

  lemma CppEntryAgrees(data: seq<byte>, more: seq<byte>, pos: nat)
    ensures Agrees(CppEntry(data, pos), CppEntry(data + more, pos), pos, |data|)
    ensures Within(CppEntry(data, pos), |data|)
  {
    hide CppText, EntryOf, ReadFields, Many;
    CppTextAgrees(data, more, pos);
    var name := CppText(data, pos);
    if name.Got? {
      FieldsAgree(Cpp, data, more, name.next);
      var fields := ReadFields(Cpp, data, name.next);
      if fields.Got? {
        forall p: nat
          ensures Agrees(CppTexts(data)(p), CppTexts(data + more)(p), p, |data|) && Within(CppTexts(data)(p), |data|)
        {
          CppTextAgrees(data, more, p);
        }
        ManyAgree(CppTexts(data), CppTexts(data + more), fields.value.names, fields.next, |data|);
        ManyWithin(CppTexts(data), fields.value.names, fields.next, |data|);
      }
    }
  }

  lemma ScalarAgrees(data: seq<byte>, more: seq<byte>, tag: nat, pos: nat)
    ensures Agrees(ReadScalar(data, tag, pos), ReadScalar(data + more, tag, pos), pos, |data|)
    ensures Within(ReadScalar(data, tag, pos), |data|)
  {
    BytesAgree(data, more, pos, 8);
    SignedAgrees(data, more, pos, 8);
    UnsignedAgrees(data, more, pos, 8);
  }

  lemma CppConstAgrees(data: seq<byte>, more: seq<byte>, pos: nat)
    ensures Agrees(CppConst(data, pos), CppConst(data + more, pos), pos, |data|)
    ensures Within(CppConst(data, pos), |data|)
  {
    hide ReadUnsigned, ReadScalar, CppText;
    UnsignedAgrees(data, more, pos, 1);
    var tag := ReadUnsigned(data, pos, 1);
    if tag.Got? {
      CppTextAgrees(data, more, tag.next);
      ScalarAgrees(data, more, tag.value, tag.next);
    }
  }

  lemma CountsAgree(data: seq<byte>, more: seq<byte>)
    ensures Agrees(CppCounts(data), CppCounts(data + more), 0, |data|) && Within(CppCounts(data), |data|)
    ensures Agrees(PyCounts(data), PyCounts(data + more), 0, |data|) && Within(PyCounts(data), |data|)
    ensures PyCounts(data).Got? ==> PyCounts(data).next == 20
  {
    hide ReadUnsigned;
    if |data| >= 4 { assert (data + more)[..4] == data[..4]; }
    UnsignedAgrees(data, more, 4, 4);
    UnsignedAgrees(data, more, 8, 4);
    UnsignedAgrees(data, more, 12, 4);
    UnsignedAgrees(data, more, 16, 4);
    FieldEnds(data, 4);
    FieldEnds(data, 8);
    FieldEnds(data, 12);
    FieldEnds(data, 16);
  }

  lemma FieldEnds(data: seq<byte>, pos: nat)
    ensures var r := ReadUnsigned(data, pos, 4); r.Got? ==> r.next == pos + 4 <= |data|
  {
  }

  lemma CppBodyAgrees(data: seq<byte>, more: seq<byte>, n: Counts, pos: nat)
    requires pos <= |data|
    ensures Agrees(CppBody(data, n, pos), CppBody(data + more, n, pos), pos, |data|)
    ensures Within(CppBody(data, n, pos), |data|)
  {
    hide CppConst, CppEntry, ReadInstr, Many;
    forall p: nat
      ensures Agrees(CppEntries(data)(p), CppEntries(data + more)(p), p, |data|) && Within(CppEntries(data)(p), |data|)
    {
      CppEntryAgrees(data, more, p);
    }
    forall p: nat
      ensures Agrees(Instrs(data)(p), Instrs(data + more)(p), p, |data|) && Within(Instrs(data)(p), |data|)
    {
      InstrAgrees(data, more, p);
    }
    forall p: nat
      ensures Agrees(CppConsts(data)(p), CppConsts(data + more)(p), p, |data|) && Within(CppConsts(data)(p), |data|)
    {
      CppConstAgrees(data, more, p);
    }
    ManyAgree(CppEntries(data), CppEntries(data + more), n.funcs, pos, |data|);
    ManyWithin(CppEntries(data), n.funcs, pos, |data|);
    var funcs := Many(CppEntries(data), n.funcs, pos);
    if funcs.Got? {
      ManyAgree(Instrs(data), Instrs(data + more), n.instrs, funcs.next, |data|);
      ManyWithin(Instrs(data), n.instrs, funcs.next, |data|);
      var instrs := Many(Instrs(data), n.instrs, funcs.next);
      if instrs.Got? {
        ManyAgree(CppConsts(data), CppConsts(data + more), n.consts, instrs.next, |data|);
        ManyWithin(CppConsts(data), n.consts, instrs.next, |data|);
      }
    }
  }

  /** Whatever the C++ reader accepts, serialized or not, it accepts in the same way when more
      bytes follow, and it never looks past the end. */
  lemma CppIgnoresTheRest(data: seq<byte>, more: seq<byte>)
    requires CppDeserialize(data).Got?
    ensures CppDeserialize(data).next <= |data|
    ensures CppDeserialize(data + more) == CppDeserialize(data)
  {
    hide CppCounts, CppBody;
    CountsAgree(data, more);
    CppBodyAgrees(data, more, CppCounts(data).value, CppCounts(data).next);
  }

  /** No strict beginning of a file is accepted by C++. */
  lemma CppRejectsPrefixes(e: Executable<string>, k: nat)
    requires Fits(e) && k < |Enc(e)|
    ensures CppDeserialize(Enc(e)[..k]).Bad?
  {
    hide CppDeserialize, Enc, Fits, RawOf;
    var short, more := Enc(e)[..k], Enc(e)[k..];
    if CppDeserialize(short).Got? {
      CppIgnoresTheRest(short, more);
      assert short + more == Enc(e) + [];
      CppReadsBack(e, []);
    }
  }
}

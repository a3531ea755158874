/** Which truncated files the Python reader accepts (python/devproc2/vm/serializer.py): it takes
    strings by slicing, and a slice past the end is shorter without an error. */
module FormatCuts {
  import opened Bytecode
  import opened Runtime
  import opened Utf8
  import opened Wire
  import opened Format
  import opened Readers
  import opened FormatRoundTrip
  import opened FormatPrefixes

  // ---------------------------------------------------------------- strings that end an item

  function LastOfConst(c: Const): Option<string> {
    if c.Str? then Some(c.s) else None
  }

  function TrimConst(c: Const, u: string): Const {
    Str(u)
  }

  function LastOf<T>(xs: seq<T>, last: T -> Option<string>): Option<string> {
    if xs == [] then None else last(xs[|xs| - 1])
  }

  function TrimAll<T>(xs: seq<T>, trim: (T, string) -> T, u: string): seq<T> {
    if xs == [] then [] else xs[..|xs| - 1] + [trim(xs[|xs| - 1], u)]
  }

  function Itself(s: string): Option<string> {
    Some(s)
  }

  function Instead(s: string, u: string): string {
    u
  }

  function LastOfEntry(f: FunctionEntry<string>): Option<string> {
    LastOf(f.paramNames, Itself)
  }

  function TrimEntry(f: FunctionEntry<string>, u: string): FunctionEntry<string> {
    f.(paramNames := TrimAll(f.paramNames, Instead, u))
  }

  /** The string the file ends with, if it ends with one. */
  function LastText(e: Executable<string>): Option<string> {
    if e.consts != [] then LastOf(e.consts, LastOfConst)
    else if e.instrs != [] then None
    else LastOf(e.funcs, LastOfEntry)
  }

  function TrimLast(e: Executable<string>, u: string): Executable<string> {
    if e.consts != [] then e.(consts := TrimAll(e.consts, TrimConst, u))
    else e.(funcs := TrimAll(e.funcs, TrimEntry, u))
  }

  // ---------------------------------------------------------------- cuts

  /** The first k bytes stop inside string s, which ends at `end`, before its j-th character. */
  ghost predicate CutAt(s: Option<string>, end: nat, k: nat, j: nat) {
    s.Some? && j < |s.value| && k + |Encode(s.value[j..])| == end
  }

  /** A cut item is read exactly when the cut is in its last string; then only that is shorter. */
  ghost predicate CutReads<T>(r: Read<T>, x: T, last: T -> Option<string>, trim: (T, string) -> T, end: nat, k: nat) {
    (r.Got? ==> exists j: nat :: CutAt(last(x), end, k, j)) &&
    forall j: nat :: CutAt(last(x), end, k, j) ==> r == Got(trim(x, last(x).value[..j]), end)
  }

  lemma {:induction false} EncodeTail(s: string, j: nat)
    requires j <= |s|
    ensures |Encode(s)| == |Encode(s[..j])| + |Encode(s[j..])|
  {
    assert s == s[..j] + s[j..];
    EncodeAppend(s[..j], s[j..]);
  }

  /** What is at a place in a file is there in its first k bytes if it ends before them. */
  lemma AtPrefix(data: seq<byte>, k: nat, pos: nat, bs: seq<byte>)
    requires At(data, pos, bs) && pos + |bs| <= k <= |data|
    ensures At(data[..k], pos, bs)
  {
    assert data[..k][pos..pos + |bs|] == data[pos..pos + |bs|];
  }

  lemma TextCut(data: seq<byte>, k: nat, pos: nat, s: string)
    requires TextFits(s) && At(data, pos, EncText(s)) && k <= |data| && k < pos + |EncText(s)|
    ensures CutReads(PyText(data[..k], pos), s, Itself, Instead, pos + |EncText(s)|, k)
  {
    hide ReadUnsigned, Unsigned, Encode, Decode, FitsUnsigned;
    var end := pos + |EncText(s)|;
    TextAt(data, pos, s);
    FieldEnds(data[..k], pos);
    forall j: nat | j <= |s| ensures |Encode(s)| == |Encode(s[..j])| + |Encode(s[j..])| { EncodeTail(s, j); }
    if pos + 4 <= k {
      AtParts(data, pos, Unsigned(|Encode(s)|, 4), Encode(s));
      AtPrefix(data, k, pos, Unsigned(|Encode(s)|, 4));
      ReadsUnsigned(data[..k], pos, |Encode(s)|, 4);
      var n := k - pos - 4;
      assert data[..k][pos + 4..k] == Encode(s)[..n] by {
        assert data[pos + 4..pos + 4 + |Encode(s)|] == Encode(s);
        assert data[..k][pos + 4..k] == data[pos + 4..pos + 4 + |Encode(s)|][..n];
      }
      DecodesPart(s, n);
      if Decode(Encode(s)[..n]).Some? {
        var j :| 0 <= j <= |s| && n == |Encode(s[..j])|;
        assert s[..|s|] == s;
        assert CutAt(Itself(s), end, k, j);
      }
    }
  }

  /** No item starts behind the end. */
  ghost predicate NeedsData<T>(read: nat -> Read<T>, k: nat) {
    forall p: nat :: p > k ==> read(p).Bad?
  }

  /** What a list reader has to know about the reader of its items. */
  ghost predicate ItemsCut<T>(data: seq<byte>, k: nat, read: nat -> Read<T>, enc: T -> seq<byte>,
                              last: T -> Option<string>, trim: (T, string) -> T, xs: seq<T>) {
    k <= |data| && NeedsData(read, k) &&
    (forall x :: x in xs ==> ReadsBack(data[..k], read, enc, AsIs, x)) &&
    forall x, p: nat :: x in xs && At(data, p, enc(x)) && k < p + |enc(x)| ==>
      CutReads(read(p), x, last, trim, p + |enc(x)|, k)
  }

  ghost predicate CutReadsMany<T>(r: Read<seq<T>>, xs: seq<T>, last: T -> Option<string>, trim: (T, string) -> T,
                                  end: nat, k: nat) {
    (r.Got? ==> exists j: nat :: CutAt(LastOf(xs, last), end, k, j)) &&
    forall j: nat :: CutAt(LastOf(xs, last), end, k, j) ==>
      r == Got(TrimAll(xs, trim, LastOf(xs, last).value[..j]), end)
  }

  /** A string that ends an item is no longer than the item. */
  ghost predicate Ends<T>(enc: T -> seq<byte>, last: T -> Option<string>, x: T) {
    last(x).Some? ==> |Encode(last(x).value)| <= |enc(x)|
  }

  lemma NoCut(s: Option<string>, size: nat, end: nat, k: nat)
    requires s.Some? ==> |Encode(s.value)| <= size
    requires k + size < end
    ensures forall j: nat :: !CutAt(s, end, k, j)
  {
    forall j: nat | s.Some? && j < |s.value| ensures !CutAt(s, end, k, j) { EncodeTail(s.value, j); }
  }

  /** The position after a cut list is the one after the whole list. */
  lemma CutEnds<T>(r: Read<seq<T>>, xs: seq<T>, last: T -> Option<string>, trim: (T, string) -> T, end: nat, k: nat)
    requires CutReadsMany(r, xs, last, trim, end, k)
    ensures r.Got? ==> r.next == end
  {
  }

  lemma {:induction false} ManyBeyond<T>(read: nat -> Read<T>, n: nat, pos: nat, k: nat)
    requires NeedsData(read, k) && n > 0 && pos > k
    ensures Many(read, n, pos).Bad?
    decreases n
  {
    if n == 1 {
      assert Many(read, 0, pos) == Got([], pos);
    } else {
      ManyBeyond(read, n - 1, pos, k);
    }
  }

  lemma {:induction false} ManyCut<T>(data: seq<byte>, k: nat, read: nat -> Read<T>, enc: T -> seq<byte>,
                                      last: T -> Option<string>, trim: (T, string) -> T, xs: seq<T>, pos: nat)
    requires ItemsCut(data, k, read, enc, last, trim, xs)
    requires At(data, pos, All(enc, xs)) && pos <= k < pos + |All(enc, xs)|
    requires forall x :: x in xs ==> Ends(enc, last, x)
    ensures CutReadsMany(Many(read, |xs|, pos), xs, last, trim, pos + |All(enc, xs)|, k)
    decreases |xs|
  {
    hide ReadsBack, At, CutAt, Encode;
    var init, x := xs[..|xs| - 1], xs[|xs| - 1];
    var p, end := pos + |All(enc, init)|, pos + |All(enc, xs)|;
    AtParts(data, pos, All(enc, init), enc(x));
    assert Ends(enc, last, x);
    if p <= k {
      AtPrefix(data, k, pos, All(enc, init));
      ReadsMany(data[..k], read, enc, AsIs, init, pos);
      MapAsIs(init);
      assert CutReads(read(p), x, last, trim, end, k);
      assert LastOf(xs, last) == last(x);
      assert forall u :: TrimAll(xs, trim, u) == init + [trim(x, u)];
      assert Many(read, |init|, pos) == Got(init, p);
    } else {
      ManyCut(data, k, read, enc, last, trim, init, pos);
      CutEnds(Many(read, |init|, pos), init, last, trim, p, k);
      NoCut(last(x), |enc(x)|, end, k);
    }
  }

  // ---------------------------------------------------------------- items

  lemma PyTextsCut(data: seq<byte>, k: nat, ss: seq<string>)
    requires k <= |data| && forall s :: s in ss ==> TextFits(s)
    ensures ItemsCut(data, k, PyTexts(data[..k]), EncText, Itself, Instead, ss)
    ensures forall s :: s in ss ==> Ends(EncText, Itself, s)
  {
    hide PyText, At, EncText, TextFits, CutReads;
    var short := data[..k];
    forall p: nat | p > k ensures PyTexts(short)(p).Bad? { TextBeyond(short, p); }
    forall s | s in ss ensures ReadsBack(short, PyTexts(short), EncText, AsIs, s) {
      forall p: nat | At(short, p, EncText(s))
        ensures PyTexts(short)(p) == Got(s, p + |EncText(s)|) { PyReadsText(short, p, s); }
    }
    forall s, p: nat | s in ss && At(data, p, EncText(s)) && k < p + |EncText(s)|
      ensures CutReads(PyTexts(short)(p), s, Itself, Instead, p + |EncText(s)|, k)
    {
      TextCut(data, k, p, s);
    }
    forall s | s in ss ensures Ends(EncText, Itself, s) { TextEnds(s); }
  }

  lemma TextEnds(s: string)
    ensures Ends(EncText, Itself, s)
  {
  }

  lemma NoTextCut(s: string, end: nat, k: nat)
    requires k + |EncText(s)| < end
    ensures forall j: nat :: !CutAt(Some(s), end, k, j)
  {
    NoCut(Some(s), |EncText(s)|, end, k);
  }

  lemma TextBeyond(data: seq<byte>, p: nat)
    requires p > |data|
    ensures PyText(data, p).Bad?
  {
  }

  lemma ConstCut(data: seq<byte>, k: nat, pos: nat, c: Const)
    requires ConstFits(c) && At(data, pos, EncConst(c)) && k <= |data| && k < pos + |EncConst(c)|
    ensures CutReads(PyConst(data[..k], pos), c, LastOfConst, TrimConst, pos + |EncConst(c)|, k)
  {
    hide ReadUnsigned, PyText, ReadScalar, EncText, Encode, Unsigned, Signed;
    var short, end := data[..k], pos + |EncConst(c)|;
    FieldWithin(short, pos, 1);
    if c.Str? {
      AtParts(data, pos, [TAG_STR], EncText(c.s));
      TextCut(data, k, pos + 1, c.s);
      if k < pos + 1 {
        NoTextCut(c.s, end, k);
        ByteBeyond(short, pos);
      } else {
        AtPrefix(data, k, pos, [TAG_STR]);
        ReadsByte(short, pos, TAG_STR);
        assert pos + 1 + |EncText(c.s)| == end && LastOfConst(c) == Itself(c.s);
        forall j: nat | CutAt(LastOfConst(c), end, k, j)
          ensures PyConst(short, pos) == Got(TrimConst(c, c.s[..j]), end) {
          assert PyText(short, pos + 1) == Got(Instead(c.s, c.s[..j]), end);
        }
      }
    } else {
      ReadsScalar(data, pos, c);
      assert short + data[k..] == data;
      UnsignedAgrees(short, data[k..], pos, 1);
      var tag := ReadUnsigned(short, pos, 1);
      if tag.Got? {
        assert tag.value == EncConst(c)[0] != TAG_STR && tag.next == pos + 1;
        ScalarAgrees(short, data[k..], tag.value, tag.next);
      }
      assert PyConst(short, pos).Bad?;
      NoneCut(None, end, k);
    }
  }

  lemma ByteBeyond(data: seq<byte>, pos: nat)
    requires pos >= |data|
    ensures ReadUnsigned(data, pos, 1).Bad?
  {
  }

  lemma NoNameCut(f: FunctionEntry<string>, end: nat, k: nat)
    requires k + |All(EncText, f.paramNames)| < end
    ensures forall j: nat :: !CutAt(LastOfEntry(f), end, k, j)
  {
    NoCut(LastOfEntry(f), |All(EncText, f.paramNames)|, end, k);
  }

  lemma FieldsBeyond(data: seq<byte>, p: nat)
    requires p >= |data|
    ensures ReadFields(Py, data, p).Bad?
  {
  }

  lemma NamesCut(r: Read<FunctionEntry<string>>, names: Read<seq<string>>, f: FunctionEntry<string>, end: nat, k: nat)
    requires CutReadsMany(names, f.paramNames, Itself, Instead, end, k)
    requires names.Bad? ==> r.Bad?
    requires names.Got? ==> r == Got(f.(paramNames := names.value), names.next)
    ensures CutReads(r, f, LastOfEntry, TrimEntry, end, k)
  {
    hide Encode;
    assert LastOfEntry(f) == LastOf(f.paramNames, Itself);
    if r.Got? {
      var j: nat :| CutAt(LastOf(f.paramNames, Itself), end, k, j);
      assert CutAt(LastOfEntry(f), end, k, j);
    }
    forall j: nat | CutAt(LastOfEntry(f), end, k, j)
      ensures r == Got(TrimEntry(f, LastOfEntry(f).value[..j]), end)
    {
      assert CutAt(LastOf(f.paramNames, Itself), end, k, j);
      assert names == Got(TrimAll(f.paramNames, Instead, LastOfEntry(f).value[..j]), end);
    }
  }

  lemma EntryCut(data: seq<byte>, k: nat, pos: nat, f: FunctionEntry<string>)
    requires EntryFits(f) && At(data, pos, EncEntry(f)) && k <= |data| && k < pos + |EncEntry(f)|
    ensures CutReads(PyEntry(data[..k], pos), f, LastOfEntry, TrimEntry, pos + |EncEntry(f)|, k)
  {
    hide EncEntry, EncText, EntryFits, InitFits, TextFits, CutAt, Ends, Instead, ItemsCut, Itself, LastOf, TrimAll,
         EncFields, PyText, PyTexts, ReadFields, Agrees, All, At, FitsSigned, FitsUnsigned, Many, Within;
    var short, more := data[..k], data[k..];
    var p1 := pos + |EncText(f.name)|;
    var p2 := p1 + |EncFields(f)|;
    var end := pos + |EncEntry(f)|;
    EntryAt(Py, data, pos, f);
    EntryFitsParts(f);
    assert short + more == data;
    if k < p1 {
      TextCut(data, k, pos, f.name);
      NoNameCut(f, end, k);
      var name := PyText(short, pos);
      if name.Got? { FieldsBeyond(short, p1); }
    } else {
      AtPrefix(data, k, pos, EncText(f.name));
      PyReadsText(short, pos, f.name);
      FieldsAgree(Py, short, more, p1);
      if k < p2 {
        CutIsBad(ReadFields(Py, short, p1), ReadFields(Py, data, p1), p1, k);
        NoNameCut(f, end, k);
      } else {
        AtPrefix(data, k, p1, EncFields(f));
        ReadsFields(Py, short, p1, f);
        PyTextsCut(data, k, f.paramNames);
        ManyCut(data, k, PyTexts(short), EncText, Itself, Instead, f.paramNames, p2);
        NamesCut(PyEntry(short, pos), Many(PyTexts(short), |f.paramNames|, p2), f, end, k);
      }
    }
  }

  // ---------------------------------------------------------------- whole files

  lemma InstrBad(data: seq<byte>, k: nat, pos: nat, i: Instr)
    requires InstrFits(i) && At(data, pos, EncInstr(i)) && k <= |data| && k < pos + |EncInstr(i)|
    ensures PyInstr(data[..k], pos).Bad?
  {
    hide EncInstr, InstrFits, RawInstrOf, OpOf, ReadInstr, At;
    ReadsInstr(data, pos, i);
    assert data[..k] + data[k..] == data;
    InstrAgrees(data[..k], data[k..], pos);
  }

  lemma ConstBeyond(data: seq<byte>, p: nat)
    requires p >= |data|
    ensures PyConst(data, p).Bad?
  {
  }

  lemma ConstsCut(data: seq<byte>, k: nat, cs: seq<Const>)
    requires k <= |data| && forall c :: c in cs ==> ConstFits(c)
    ensures ItemsCut(data, k, PyConsts(data[..k]), EncConst, LastOfConst, TrimConst, cs)
    ensures forall c :: c in cs ==> Ends(EncConst, LastOfConst, c)
  {
    hide PyConst, At, EncConst, ConstFits, CutReads;
    var short := data[..k];
    forall p: nat | p > k ensures PyConsts(short)(p).Bad? { ConstBeyond(short, p); }
    forall c | c in cs ensures ReadsBack(short, PyConsts(short), EncConst, AsIs, c) {
      forall p: nat | At(short, p, EncConst(c))
        ensures PyConsts(short)(p) == Got(c, p + |EncConst(c)|) { PyReadsConst(short, p, c); }
    }
    forall c, p: nat | c in cs && At(data, p, EncConst(c)) && k < p + |EncConst(c)|
      ensures CutReads(PyConsts(short)(p), c, LastOfConst, TrimConst, p + |EncConst(c)|, k)
    {
      ConstCut(data, k, p, c);
    }
    forall c | c in cs ensures Ends(EncConst, LastOfConst, c) { ConstEnds(c); }
  }

  lemma ConstEnds(c: Const)
    ensures Ends(EncConst, LastOfConst, c)
  {
  }

  lemma EntriesCut(data: seq<byte>, k: nat, fs: seq<FunctionEntry<string>>)
    requires k <= |data| && forall f :: f in fs ==> EntryFits(f)
    ensures ItemsCut(data, k, PyEntries(data[..k]), EncEntry, LastOfEntry, TrimEntry, fs)
    ensures forall f :: f in fs ==> Ends(EncEntry, LastOfEntry, f)
  {
    hide PyEntry, At, EncEntry, EntryFits, CutReads;
    var short := data[..k];
    forall p: nat | p > k ensures PyEntries(short)(p).Bad? { EntryBeyond(short, p); }
    forall f | f in fs ensures ReadsBack(short, PyEntries(short), EncEntry, AsIs, f) {
      forall p: nat | At(short, p, EncEntry(f))
        ensures PyEntries(short)(p) == Got(f, p + |EncEntry(f)|) { PyReadsEntry(short, p, f); }
    }
    forall f, p: nat | f in fs && At(data, p, EncEntry(f)) && k < p + |EncEntry(f)|
      ensures CutReads(PyEntries(short)(p), f, LastOfEntry, TrimEntry, p + |EncEntry(f)|, k)
    {
      EntryCut(data, k, p, f);
    }
    forall f | f in fs ensures Ends(EncEntry, LastOfEntry, f) { EntryEnds(f); }
  }

  lemma EntryBeyond(data: seq<byte>, p: nat)
    requires p > |data|
    ensures PyEntry(data, p).Bad?
  {
    hide PyText;
    TextBeyond(data, p);
  }

  lemma EntryEnds(f: FunctionEntry<string>)
    ensures Ends(EncEntry, LastOfEntry, f)
  {
    EntryParts(f);
  }

  function NoString(i: Instr): Option<string> {
    None
  }

  function NoTrim(i: Instr, u: string): Instr {
    i
  }

  lemma InstrsCut(data: seq<byte>, k: nat, instrs: seq<Instr>)
    requires k <= |data| && forall i :: i in instrs ==> InstrFits(i)
    ensures ItemsCut(data, k, PyInstrs(data[..k]), EncInstr, NoString, NoTrim, instrs)
    ensures forall i :: i in instrs ==> Ends(EncInstr, NoString, i)
  {
    hide PyInstr, At, EncInstr, InstrFits;
    var short := data[..k];
    forall p: nat | p > k ensures PyInstrs(short)(p).Bad? { InstrBeyond(short, p); }
    forall i | i in instrs ensures ReadsBack(short, PyInstrs(short), EncInstr, AsIs, i) {
      forall p: nat | At(short, p, EncInstr(i))
        ensures PyInstrs(short)(p) == Got(i, p + |EncInstr(i)|) { PyReadsInstr(short, p, i); }
    }
    forall i, p: nat | i in instrs && At(data, p, EncInstr(i)) && k < p + |EncInstr(i)|
      ensures CutReads(PyInstrs(short)(p), i, NoString, NoTrim, p + |EncInstr(i)|, k)
    {
      InstrBad(data, k, p, i);
    }
  }

  lemma InstrBeyond(data: seq<byte>, p: nat)
    requires p > |data|
    ensures PyInstr(data, p).Bad?
  {
  }

  ghost predicate FileCut(r: Read<Executable<string>>, e: Executable<string>, k: nat) {
    (r.Got? ==> exists j: nat :: CutAt(LastText(e), |Enc(e)|, k, j)) &&
    forall j: nat :: CutAt(LastText(e), |Enc(e)|, k, j) ==> r == Got(TrimLast(e, LastText(e).value[..j]), |Enc(e)|)
  }

  /** A cut before the constants, if there are any, is in no string that ends the file. */
  lemma NoConstCut(e: Executable<string>, k: nat)
    requires e.consts != [] && k + |All(EncConst, e.consts)| < |Enc(e)|
    ensures forall j: nat :: !CutAt(LastText(e), |Enc(e)|, k, j)
  {
    hide Enc, CutAt, EncConst;
    var n := |e.consts| - 1;
    assert All(EncConst, e.consts) == All(EncConst, e.consts[..n]) + EncConst(e.consts[n]);
    ConstEnds(e.consts[n]);
    NoCut(LastText(e), |All(EncConst, e.consts)|, |Enc(e)|, k);
  }

  lemma NoStringCut(e: Executable<string>, k: nat)
    requires e.consts == [] && e.instrs != []
    ensures forall j: nat :: !CutAt(LastText(e), |Enc(e)|, k, j)
  {
  }

  /** Trimming the last item of a list trims the executable around it. */
  lemma LiftCut<T>(r: Read<Executable<string>>, items: Read<seq<T>>, e: Executable<string>, xs: seq<T>,
                   last: T -> Option<string>, trim: (T, string) -> T, with: seq<T> -> Executable<string>, k: nat)
    requires CutReadsMany(items, xs, last, trim, |Enc(e)|, k)
    requires LastOf(xs, last) == LastText(e)
    requires forall u :: LastText(e).Some? ==> with(TrimAll(xs, trim, u)) == TrimLast(e, u)
    requires items.Bad? ==> r.Bad?
    requires items.Got? ==> r == Got(with(items.value), items.next)
    ensures FileCut(r, e, k)
  {
    hide LastText, TrimLast, TrimAll, Enc, LastOf, Encode;
    forall j: nat | CutAt(LastText(e), |Enc(e)|, k, j)
      ensures r == Got(TrimLast(e, LastText(e).value[..j]), |Enc(e)|)
    {
      assert CutAt(LastOf(xs, last), |Enc(e)|, k, j);
    }
  }

  lemma LiftEntries(r: Read<Executable<string>>, funcs: Read<seq<FunctionEntry<string>>>, e: Executable<string>, k: nat)
    requires e.instrs == [] && e.consts == [] && CutReadsMany(funcs, e.funcs, LastOfEntry, TrimEntry, |Enc(e)|, k)
    requires funcs.Bad? ==> r.Bad?
    requires funcs.Got? ==> r == Got(Executable(funcs.value, [], []), funcs.next)
    ensures FileCut(r, e, k)
  {
    hide Enc, CutReadsMany, FileCut, LastOfEntry, TrimEntry;
    LiftCut(r, funcs, e, e.funcs, LastOfEntry, TrimEntry, fs => Executable(fs, [], []), k);
  }

  lemma LiftConsts(r: Read<Executable<string>>, consts: Read<seq<Const>>, e: Executable<string>, k: nat)
    requires e.consts != [] && CutReadsMany(consts, e.consts, LastOfConst, TrimConst, |Enc(e)|, k)
    requires consts.Bad? ==> r.Bad?
    requires consts.Got? ==> r == Got(Executable(e.funcs, e.instrs, consts.value), consts.next)
    ensures FileCut(r, e, k)
  {
    hide Enc, CutReadsMany, FileCut, LastOfConst, TrimConst;
    LiftCut(r, consts, e, e.consts, LastOfConst, TrimConst, cs => Executable(e.funcs, e.instrs, cs), k);
  }

  /** Nothing but entries: the file ends where they end. */
  lemma OnlyEntries(e: Executable<string>)
    requires e.instrs == [] && e.consts == []
    ensures |Enc(e)| == |HeaderOf(e)| + |All(EncEntry, e.funcs)|
  {
    hide EncEntry, EncHeader;
  }

  /** The file is cut in its function table. */
  lemma EntriesCutFile(data: seq<byte>, e: Executable<string>, k: nat)
    requires Fits(e) && At(data, 0, Enc(e)) && k < |Enc(e)| <= |data|
    requires |HeaderOf(e)| <= k < |HeaderOf(e)| + |All(EncEntry, e.funcs)|
    ensures FileCut(PyBody(data[..k], CountsOf(e), |HeaderOf(e)|), e, k)
  {
    hide ConstFits, Enc, EncConst, EncEntry, EncInstr, EntryFits, Fits, InstrFits, CutAt, CutReads, Ends, LastOf,
         LastOfConst, LastOfEntry, LastText, NeedsData, NoString, NoTrim, TrimAll, TrimConst, TrimEntry, TrimLast,
         AsIs, HeaderOf, PyConsts, PyEntries, PyInstrs, All, At, FitsUnsigned, Many, ReadsBack;
    var short, p1 := data[..k], |HeaderOf(e)|;
    var p2 := p1 + |All(EncEntry, e.funcs)|;
    FileParts(data, e);
    FitsCounts(e);
    EntriesCut(data, k, e.funcs);
    InstrsCut(data, k, e.instrs);
    ConstsCut(data, k, e.consts);
    ManyCut(data, k, PyEntries(short), EncEntry, LastOfEntry, TrimEntry, e.funcs, p1);
    ManyNone(PyInstrs(short), p2);
    ManyNone(PyConsts(short), p2);
    if e.instrs != [] {
      ManyBeyond(PyInstrs(short), |e.instrs|, p2, k);
    } else if e.consts != [] {
      ManyBeyond(PyConsts(short), |e.consts|, p2, k);
    }
    if e.consts != [] {
      NoConstCut(e, k);
    } else if e.instrs != [] {
      NoStringCut(e, k);
    } else {
      var funcs, r := Many(PyEntries(short), |e.funcs|, p1), PyBody(short, CountsOf(e), p1);
      OnlyEntries(e);
      CutEnds(funcs, e.funcs, LastOfEntry, TrimEntry, p2, k);
      LiftEntries(r, funcs, e, k);
    }
  }

  /** The file is cut in its instructions. */
  lemma InstrsCutFile(data: seq<byte>, e: Executable<string>, k: nat)
    requires Fits(e) && At(data, 0, Enc(e)) && k < |Enc(e)| <= |data|
    requires var p2 := |HeaderOf(e)| + |All(EncEntry, e.funcs)|; p2 <= k < p2 + |All(EncInstr, e.instrs)|
    ensures FileCut(PyBody(data[..k], CountsOf(e), |HeaderOf(e)|), e, k)
  {
    hide ConstFits, Enc, EncConst, EncEntry, EncInstr, EntryFits, Fits, InstrFits, CutAt, CutReads, Ends, LastOf,
         LastOfEntry, LastText, NeedsData, NoString, NoTrim, TrimAll, TrimEntry, TrimLast, AsIs, HeaderOf, PyConsts,
         PyEntries, PyInstrs, All, At, FitsUnsigned, Many, Map, ReadsBack;
    var short, p1 := data[..k], |HeaderOf(e)|;
    var p2 := p1 + |All(EncEntry, e.funcs)|;
    FileParts(data, e);
    FitsCounts(e);
    EntriesCut(data, k, e.funcs);
    InstrsCut(data, k, e.instrs);
    AtPrefix(data, k, p1, All(EncEntry, e.funcs));
    ReadsMany(short, PyEntries(short), EncEntry, AsIs, e.funcs, p1);
    MapAsIs(e.funcs);
    ManyCut(data, k, PyInstrs(short), EncInstr, NoString, NoTrim, e.instrs, p2);
    NoInstrCut(e.instrs, p2 + |All(EncInstr, e.instrs)|, k);
    if e.consts != [] {
      NoConstCut(e, k);
    } else {
      AllNonEmpty(EncInstr, e.instrs);
      NoStringCut(e, k);
    }
  }

  lemma NoInstrCut(instrs: seq<Instr>, end: nat, k: nat)
    ensures forall j: nat :: !CutAt(LastOf(instrs, NoString), end, k, j)
  {
  }

  lemma NoneCut(s: Option<string>, end: nat, k: nat)
    requires s.None?
    ensures forall j: nat :: !CutAt(s, end, k, j)
  {
  }

  /** The file is cut in its constants. */
  lemma ConstsCutFile(data: seq<byte>, e: Executable<string>, k: nat)
    requires Fits(e) && At(data, 0, Enc(e)) && k < |Enc(e)| <= |data|
    requires |HeaderOf(e)| + |All(EncEntry, e.funcs)| + |All(EncInstr, e.instrs)| <= k
    ensures FileCut(PyBody(data[..k], CountsOf(e), |HeaderOf(e)|), e, k)
  {
    hide ConstFits, Enc, EncConst, EncEntry, EncInstr, EntryFits, Fits, InstrFits, CutAt, CutReads, Ends, LastOf,
         LastOfConst, LastOfEntry, LastText, NeedsData, NoString, NoTrim, TrimAll, TrimConst, TrimEntry, TrimLast,
         AsIs, HeaderOf, PyConsts, PyEntries, PyInstrs, All, At, FitsUnsigned, Many, Map, ReadsBack;
    var short, p1 := data[..k], |HeaderOf(e)|;
    var p2 := p1 + |All(EncEntry, e.funcs)|;
    var p3 := p2 + |All(EncInstr, e.instrs)|;
    FileParts(data, e);
    FitsCounts(e);
    EntriesCut(data, k, e.funcs);
    InstrsCut(data, k, e.instrs);
    ConstsCut(data, k, e.consts);
    AtPrefix(data, k, p1, All(EncEntry, e.funcs));
    AtPrefix(data, k, p2, All(EncInstr, e.instrs));
    ReadsMany(short, PyEntries(short), EncEntry, AsIs, e.funcs, p1);
    ReadsMany(short, PyInstrs(short), EncInstr, AsIs, e.instrs, p2);
    MapAsIs(e.funcs);
    MapAsIs(e.instrs);
    ManyCut(data, k, PyConsts(short), EncConst, LastOfConst, TrimConst, e.consts, p3);
    AllNonEmpty(EncConst, e.consts);
    LiftConsts(PyBody(short, CountsOf(e), p1), Many(PyConsts(short), |e.consts|, p3), e, k);
  }

  /** Python accepts a truncated file exactly when the file ends with a string and the cut is
      before one of its characters; the result differs in that string only, which stops there. */
  lemma PyAcceptsCutStrings(e: Executable<string>, k: nat)
    requires Fits(e) && k < |Enc(e)|
    ensures PyDeserialize(Enc(e)[..k]).Got? <==> exists j: nat :: CutAt(LastText(e), |Enc(e)|, k, j)
    ensures forall j: nat :: CutAt(LastText(e), |Enc(e)|, k, j) ==>
      PyDeserialize(Enc(e)[..k]) == Got(TrimLast(e, LastText(e).value[..j]), |Enc(e)|)
  {
    hide Enc, EncConst, EncEntry, EncInstr, Fits, CutAt, LastText, TrimLast, CountsOf, HeaderOf, CppCounts, PyBody,
         PyCounts, Agrees, All, At, Within;
    var data := Enc(e);
    var short := data[..k];
    AtStart(data, []);
    assert data + [] == data;
    FileParts(data, e);
    ReadsHeader(data, e);
    assert short + data[k..] == data;
    CountsAgree(short, data[k..]);
    if k < |HeaderOf(e)| {
      CutIsBad(PyCounts(short), PyCounts(data), 0, k);
      NoHeaderCut(e, k);
    } else {
      AtPrefix(data, k, 0, HeaderOf(e));
      ReadsHeader(short, e);
      if k < |HeaderOf(e)| + |All(EncEntry, e.funcs)| {
        EntriesCutFile(data, e, k);
      } else if k < |HeaderOf(e)| + |All(EncEntry, e.funcs)| + |All(EncInstr, e.instrs)| {
        InstrsCutFile(data, e, k);
      } else {
        ConstsCutFile(data, e, k);
      }
    }
  }

  lemma NoHeaderCut(e: Executable<string>, k: nat)
    requires k < |HeaderOf(e)|
    ensures forall j: nat :: !CutAt(LastText(e), |Enc(e)|, k, j)
  {
    hide EncConst, EncEntry, EncHeader, EncInstr, CutAt, Ends, LastOfEntry, LastText, Encode, All;
    if e.consts != [] {
      NoConstCut(e, k);
    } else if e.instrs != [] {
      NoStringCut(e, k);
    } else if e.funcs != [] {
      NoEntryCut(e, k);
    } else {
      NothingCut(e, k);
    }
  }

  lemma NoEntryCut(e: Executable<string>, k: nat)
    requires e.consts == [] && e.instrs == [] && e.funcs != [] && k < |HeaderOf(e)|
    ensures forall j: nat :: !CutAt(LastText(e), |Enc(e)|, k, j)
  {
    hide EncEntry, EncHeader, CutAt, LastOfEntry, Encode;
    var n := |e.funcs| - 1;
    EntryEnds(e.funcs[n]);
    assert All(EncEntry, e.funcs) == All(EncEntry, e.funcs[..n]) + EncEntry(e.funcs[n]);
    OnlyEntries(e);
    NoCut(LastText(e), |All(EncEntry, e.funcs)|, |Enc(e)|, k);
  }

  lemma NothingCut(e: Executable<string>, k: nat)
    requires e.consts == [] && e.instrs == [] && e.funcs == []
    ensures forall j: nat :: !CutAt(LastText(e), |Enc(e)|, k, j)
  {
    hide Enc;
  }
}

/** UTF-8 the way Python's `str.encode` and `bytes.decode` use it: a strict decoder
    (python/devproc2/vm/serializer.py). */
module Utf8 {
  import opened Bytecode

  type byte = b: int | 0 <= b < 256

  function EncodeChar(c: char): (bs: seq<byte>)
    ensures 1 <= |bs| <= 4
  {
    var v := c as int;
    if v < 0x80 then [v]
    else if v < 0x800 then [0xC0 + v / 64, 0x80 + v % 64]
    else if v < 0x1_0000 then [0xE0 + v / 4096, 0x80 + v / 64 % 64, 0x80 + v % 64]
    else [0xF0 + v / 262144, 0x80 + v / 4096 % 64, 0x80 + v / 64 % 64, 0x80 + v % 64]
  }

  function Encode(s: string): seq<byte> {
    if s == [] then [] else EncodeChar(s[0]) + Encode(s[1..])
  }

  predicate Trails(bs: seq<byte>, n: nat) {
    |bs| >= n && forall k :: 1 <= k < n ==> 0x80 <= bs[k] < 0xC0
  }

  /** Payload of a byte above its marker. */
  function Above(b: byte, marker: int): int {
    b - marker
  }

  predicate Scalar(v: int) {
    0 <= v < 0xD800 || 0xE000 <= v < 0x11_0000
  }

  function TwoBytes(bs: seq<byte>): int
    requires Trails(bs, 2)
  {
    64 * Above(bs[0], 0xC0) + Above(bs[1], 0x80)
  }

  function ThreeBytes(bs: seq<byte>): int
    requires Trails(bs, 3)
  {
    4096 * Above(bs[0], 0xE0) + 64 * Above(bs[1], 0x80) + Above(bs[2], 0x80)
  }

  function FourBytes(bs: seq<byte>): int
    requires Trails(bs, 4)
  {
    262144 * Above(bs[0], 0xF0) + 4096 * Above(bs[1], 0x80) + 64 * Above(bs[2], 0x80) + Above(bs[3], 0x80)
  }

  /** The first character and the number of its bytes: shortest forms only, no surrogates. */
  function DecodeChar(bs: seq<byte>): (r: Option<(char, nat)>)
    ensures r.Some? ==> 1 <= r.value.1 <= |bs|
  {
    if bs == [] then None
    else if bs[0] < 0x80 then Some((bs[0] as char, 1))
    else if bs[0] < 0xC2 then None
    else if bs[0] < 0xE0 then
      if Trails(bs, 2) then Some((TwoBytes(bs) as char, 2)) else None
    else if bs[0] < 0xF0 then
      if Trails(bs, 3) && ThreeBytes(bs) >= 0x800 && Scalar(ThreeBytes(bs)) then Some((ThreeBytes(bs) as char, 3))
        else None
    else if bs[0] < 0xF5 then
      if Trails(bs, 4) && FourBytes(bs) >= 0x1_0000 && Scalar(FourBytes(bs)) then Some((FourBytes(bs) as char, 4))
        else None
    else None
  }

  function Decode(bs: seq<byte>): Option<string> {
    if bs == [] then Some([])
    else
      match DecodeChar(bs)
      case None => None
      case Some((c, n)) =>
        match Decode(bs[n..])
        case None => None
        case Some(rest) => Some([c] + rest)
  }

  lemma Digits(v: nat)
    ensures v == 64 * (v / 64) + v % 64
    ensures v / 64 == 64 * (v / 4096) + v / 64 % 64
    ensures v / 4096 == 64 * (v / 262144) + v / 4096 % 64
  {
    assert v / 64 / 64 == v / 4096 && v / 4096 / 64 == v / 262144;
  }

  lemma DecodeEncodeChar(c: char, rest: seq<byte>)
    ensures DecodeChar(EncodeChar(c) + rest) == Some((c, |EncodeChar(c)|))
  {
    var v, bs := c as int, EncodeChar(c) + rest;
    Digits(v);
    if v < 0x80 {
      assert bs[0] == v;
    } else if v < 0x800 {
      assert Trails(bs, 2) && TwoBytes(bs) == v;
    } else if v < 0x1_0000 {
      assert Trails(bs, 3) && ThreeBytes(bs) == v;
    } else {
      assert Trails(bs, 4) && FourBytes(bs) == v;
    }
  }

  /** Sixty-four times the upper part plus a digit determines both. */
  lemma DigitsOf(v: nat, high: nat, low: nat)
    requires v == 64 * high + low && low < 64
    ensures v / 64 == high && v % 64 == low
  {
  }

  lemma EncodeDecodeChar(bs: seq<byte>)
    requires DecodeChar(bs).Some?
    ensures EncodeChar(DecodeChar(bs).value.0) == bs[..DecodeChar(bs).value.1]
  {
    var (c, n) := DecodeChar(bs).value;
    var v := c as int;
    Digits(v);
    if n == 2 {
      DigitsOf(v, Above(bs[0], 0xC0), Above(bs[1], 0x80));
    } else if n == 3 {
      DigitsOf(v, 64 * Above(bs[0], 0xE0) + Above(bs[1], 0x80), Above(bs[2], 0x80));
      DigitsOf(v / 64, Above(bs[0], 0xE0), Above(bs[1], 0x80));
    } else if n == 4 {
      DigitsOf(v, 4096 * Above(bs[0], 0xF0) + 64 * Above(bs[1], 0x80) + Above(bs[2], 0x80), Above(bs[3], 0x80));
      DigitsOf(v / 64, 64 * Above(bs[0], 0xF0) + Above(bs[1], 0x80), Above(bs[2], 0x80));
      DigitsOf(v / 4096, Above(bs[0], 0xF0), Above(bs[1], 0x80));
    }
  }

  /** Decoding inverts encoding. */
  lemma {:induction false} DecodeEncode(s: string)
    ensures Decode(Encode(s)) == Some(s)
  {
    if s != [] {
      DecodeEncodeChar(s[0], Encode(s[1..]));
      assert Encode(s)[|EncodeChar(s[0])|..] == Encode(s[1..]);
      DecodeEncode(s[1..]);
      assert [s[0]] + s[1..] == s;
    }
  }

  /** Only encodings are decoded. */
  lemma {:induction false} EncodeDecode(bs: seq<byte>)
    requires Decode(bs).Some?
    ensures Encode(Decode(bs).value) == bs
  {
    hide DecodeChar, EncodeChar;
    if bs != [] {
      var (c, n) := DecodeChar(bs).value;
      EncodeDecodeChar(bs);
      EncodeDecode(bs[n..]);
      assert Decode(bs).value[1..] == Decode(bs[n..]).value;
      assert bs == bs[..n] + bs[n..];
    }
  }

  lemma {:induction false} EncodeAppend(s: string, t: string)
    ensures Encode(s + t) == Encode(s) + Encode(t)
  {
    if s == [] {
      assert s + t == t;
    } else {
      assert (s + t)[1..] == s[1..] + t;
      EncodeAppend(s[1..], t);
    }
  }

  /** An encoding that begins another one encodes a beginning of its string. */
  lemma {:induction false} EncodingsNest(s: string, t: string)
    requires Encode(s) <= Encode(t)
    ensures s <= t
  {
    if s != [] {
      DecodeEncodeChar(s[0], Encode(s[1..]));
      if t != [] {
        var n := |EncodeChar(s[0])|;
        var more := Encode(t)[|Encode(s)|..];
        assert Encode(t) == EncodeChar(s[0]) + (Encode(s[1..]) + more);
        DecodeEncodeChar(s[0], Encode(s[1..]) + more);
        DecodeEncodeChar(t[0], Encode(t[1..]));
        assert Encode(t)[n..] == Encode(t[1..]);
        EncodingsNest(s[1..], t[1..]);
      }
    }
  }

  /** Part of an encoding can be decoded exactly when it stops between two characters. */
  lemma {:induction false} DecodesPart(s: string, n: nat)
    requires n <= |Encode(s)|
    ensures Decode(Encode(s)[..n]).Some? <==> exists j :: 0 <= j <= |s| && n == |Encode(s[..j])|
    ensures forall j :: 0 <= j <= |s| && n == |Encode(s[..j])| ==> Decode(Encode(s)[..n]) == Some(s[..j])
  {
    var part := Encode(s)[..n];
    if Decode(part).Some? {
      var t := Decode(part).value;
      EncodeDecode(part);
      EncodingsNest(t, s);
      assert t == s[..|t|];
    }
    forall j | 0 <= j <= |s| && n == |Encode(s[..j])|
      ensures Decode(part) == Some(s[..j])
    {
      assert s == s[..j] + s[j..];
      EncodeAppend(s[..j], s[j..]);
      assert part == Encode(s[..j]);
      DecodeEncode(s[..j]);
    }
  }
}

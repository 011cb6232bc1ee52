/** UTF-8 as RFC 3629 has it: what the size of a text in bytes counts. */
module Utf8 {
  import opened Texts

  type Byte = b: int | 0 <= b < 256

  type Bytes = seq<Byte>

  /** The code point of a surrogate pair. */
  function CodePoint(high: Unit, low: Unit): (c: int)
    requires High(high) && Low(low)
    ensures 0x1_0000 <= c <= 0x10_FFFF
  {
    0x1_0000 + (high - 0xD800) * 0x400 + (low - 0xDC00)
  }

  /** One unit outside a pair; an unpaired surrogate becomes the replacement character. */
  function EncodeUnit(u: Unit): Bytes {
    if u < 0x80 then [u]
    else if u < 0x800 then [0xC0 + u / 64, 0x80 + u % 64]
    else if High(u) || Low(u) then [0xEF, 0xBF, 0xBD]
    else [0xE0 + u / 4096, 0x80 + u / 64 % 64, 0x80 + u % 64]
  }

  function EncodePair(c: int): Bytes
    requires 0x1_0000 <= c <= 0x10_FFFF
  {
    [0xF0 + c / 262_144, 0x80 + c / 4096 % 64, 0x80 + c / 64 % 64, 0x80 + c % 64]
  }

  function Encode(s: Text): Bytes
    decreases |s|
  {
    if s == [] then []
    else if PairAt(s) then EncodePair(CodePoint(s[0], s[1])) + Encode(s[2..])
    else EncodeUnit(s[0]) + Encode(s[1..])
  }

  predicate Trailing(b: Byte) {
    0x80 <= b <= 0xBF
  }

  /** The six bits of a trailing byte. */
  function Six(b: Byte): int {
    b as int - 0x80
  }

  /** The bits of a leading byte after its mark. */
  function Lead(b: Byte, mark: int): int {
    b as int - mark
  }

  /** The first code point of a byte sequence and how many bytes it takes:
      section 4 of RFC 3629, without overlong forms and surrogates. */
  function First(b: Bytes): Option<(int, nat)> {
    if b == [] then None
    else if b[0] < 0x80 then Some((b[0], 1))
    else if 0xC2 <= b[0] <= 0xDF then
      if |b| >= 2 && Trailing(b[1]) then Some((Lead(b[0], 0xC0) * 64 + Six(b[1]), 2)) else None
    else if 0xE0 <= b[0] <= 0xEF then
      if |b| >= 3 && Trailing(b[1]) && Trailing(b[2]) then
        var c := Lead(b[0], 0xE0) * 4096 + Six(b[1]) * 64 + Six(b[2]);
        if 0x800 <= c && !(0xD800 <= c <= 0xDFFF) then Some((c, 3)) else None
      else None
    else if 0xF0 <= b[0] <= 0xF4 then
      if |b| >= 4 && Trailing(b[1]) && Trailing(b[2]) && Trailing(b[3]) then
        var c := Lead(b[0], 0xF0) * 262_144 + Six(b[1]) * 4096 + Six(b[2]) * 64 + Six(b[3]);
        if 0x1_0000 <= c <= 0x10_FFFF then Some((c, 4)) else None
      else None
    else None
  }

  /** A code point as UTF-16 code units. */
  function Units(c: int): Text
    requires 0 <= c <= 0x10_FFFF
  {
    if c < 0x1_0000 then [c] else [0xD800 + (c - 0x1_0000) / 0x400, 0xDC00 + (c - 0x1_0000) % 0x400]
  }

  lemma FirstFits(b: Bytes)
    ensures First(b).Some? ==>
              var (c, n) := First(b).value;
              0 <= c <= 0x10_FFFF && 0 < n <= |b| && !(0xD800 <= c <= 0xDFFF)
  {
  }

  function Decode(b: Bytes): Option<Text>
    decreases |b|
  {
    FirstFits(b);
    if b == [] then Some([])
    else
      match First(b)
      case None => None
      case Some((c, n)) =>
        match Decode(b[n..])
        case None => None
        case Some(rest) => Some(Units(c) + rest)
  }

  // ------------------------------------------------------------ round trips

  lemma FirstOfUnit(u: Unit, rest: Bytes)
    requires !High(u) && !Low(u)
    ensures First(EncodeUnit(u) + rest) == Some((u, |EncodeUnit(u)|))
  {
    var b := EncodeUnit(u) + rest;
    if 0x80 <= u < 0x800 {
      assert b[0] == 0xC0 + u / 64 && b[1] == 0x80 + u % 64;
    } else if u >= 0x800 {
      assert b[0] == 0xE0 + u / 4096 && b[1] == 0x80 + u / 64 % 64 && b[2] == 0x80 + u % 64;
      assert u == u / 4096 * 4096 + u / 64 % 64 * 64 + u % 64;
    }
  }

  lemma Parts(c: int)
    requires c >= 0
    ensures c == c / 262_144 * 262_144 + c / 4096 % 64 * 4096 + c / 64 % 64 * 64 + c % 64
  {
    assert c / 4096 == c / 64 / 64 && c / 262_144 == c / 4096 / 64;
  }

  lemma FirstOfPair(c: int, rest: Bytes)
    requires 0x1_0000 <= c <= 0x10_FFFF
    ensures First(EncodePair(c) + rest) == Some((c, 4))
  {
    var b := EncodePair(c) + rest;
    assert b[0] == 0xF0 + c / 262_144 && b[1] == 0x80 + c / 4096 % 64;
    assert b[2] == 0x80 + c / 64 % 64 && b[3] == 0x80 + c % 64;
    Parts(c);
  }

  lemma PairUnits(high: Unit, low: Unit)
    requires High(high) && Low(low)
    ensures Units(CodePoint(high, low)) == [high, low]
  {
  }

  lemma PairedTail(s: Text)
    requires Paired(s) && s != []
    ensures if PairAt(s) then Paired(s[2..]) else !High(s[0]) && !Low(s[0]) && Paired(s[1..])
  {
    var rest := if PairAt(s) then s[2..] else s[1..];
    var k := if PairAt(s) then 2 else 1;
    assert forall i :: 0 <= i < |rest| ==> rest[i] == s[i + k];
  }

  /** Decoding takes encoding back on every string of paired surrogates. */
  lemma {:induction false} DecodeEncode(s: Text)
    requires Paired(s)
    ensures Decode(Encode(s)) == Some(s)
    decreases |s|
  {
    hide First, Paired, EncodeUnit, EncodePair, Units, CodePoint;
    if s != [] {
      PairedTail(s);
      if PairAt(s) {
        var c := CodePoint(s[0], s[1]);
        DecodeEncode(s[2..]);
        FirstOfPair(c, Encode(s[2..]));
        PairSize(c);
        assert Encode(s)[4..] == Encode(s[2..]);
        PairUnits(s[0], s[1]);
        assert s == [s[0], s[1]] + s[2..];
      } else {
        DecodeEncode(s[1..]);
        FirstOfUnit(s[0], Encode(s[1..]));
        UnitSize(s[0]);
        assert Encode(s)[|EncodeUnit(s[0])|..] == Encode(s[1..]);
        OneUnit(s[0]);
        assert s == [s[0]] + s[1..];
      }
    }
  }

  lemma OneUnit(u: Unit)
    ensures Units(u) == [u]
  {
  }

  lemma PairSize(c: int)
    requires 0x1_0000 <= c <= 0x10_FFFF
    ensures |EncodePair(c)| == 4
  {
  }

  lemma UnitSize(u: Unit)
    ensures |EncodeUnit(u)| == UnitBytes(u) > 0
  {
  }

  /** The size that the limits of the program count is that of the encoding. */
  lemma {:induction false} Utf8LenIsSize(s: Text)
    ensures |Encode(s)| == Utf8Len(s)
    decreases |s|
  {
    hide EncodeUnit, EncodePair, CodePoint, UnitBytes;
    if s != [] {
      if PairAt(s) {
        PairSize(CodePoint(s[0], s[1]));
        Utf8LenIsSize(s[2..]);
      } else {
        UnitSize(s[0]);
        Utf8LenIsSize(s[1..]);
      }
    }
  }

  // ---------------------------------------------- there is no other encoding

  /** The digits of a number in base 64. */
  lemma Digits(a: int, x: int, y: int, z: int)
    requires 0 <= a && 0 <= x < 64 && 0 <= y < 64 && 0 <= z < 64
    ensures var c := a * 262_144 + x * 4096 + y * 64 + z;
            c % 64 == z && c / 64 % 64 == y && c / 4096 % 64 == x && c / 262_144 == a
  {
    var c := a * 262_144 + x * 4096 + y * 64 + z;
    assert c / 64 == a * 4096 + x * 64 + y;
    assert c / 4096 == a * 64 + x;
  }

  lemma EncodeShort(b: Bytes)
    requires First(b).Some? && First(b).value.1 <= 2
    ensures First(b).value.0 < 0x800 && b[..First(b).value.1] == EncodeUnit(First(b).value.0)
  {
    if First(b).value.1 == 2 {
      Digits(0, 0, Lead(b[0], 0xC0), Six(b[1]));
      assert b[..2] == [b[0], b[1]];
    }
  }

  lemma EncodeThree(b: Bytes)
    requires First(b).Some? && First(b).value.1 == 3
    ensures First(b).value.0 < 0x1_0000 && b[..3] == EncodeUnit(First(b).value.0)
  {
    Digits(0, Lead(b[0], 0xE0), Six(b[1]), Six(b[2]));
    assert b[..3] == [b[0], b[1], b[2]];
  }

  lemma EncodeFour(b: Bytes)
    requires First(b).Some? && First(b).value.1 == 4
    ensures 0x1_0000 <= First(b).value.0 <= 0x10_FFFF && b[..4] == EncodePair(First(b).value.0)
  {
    Digits(Lead(b[0], 0xF0), Six(b[1]), Six(b[2]), Six(b[3]));
    assert b[..4] == [b[0], b[1], b[2], b[3]];
  }

  lemma EncodeFirst(b: Bytes)
    requires First(b).Some?
    ensures First(b).value.1 <= |b| && 0 <= First(b).value.0 <= 0x10_FFFF
    ensures var (c, n) := First(b).value;
            b[..n] == if c < 0x1_0000 then EncodeUnit(c) else EncodePair(c)
  {
    hide EncodeUnit, EncodePair, Six, Lead;
    FirstFits(b);
    if First(b).value.1 <= 2 {
      EncodeShort(b);
    } else if First(b).value.1 == 3 {
      EncodeThree(b);
    } else {
      EncodeFour(b);
    }
  }

  lemma EncodeUnits(c: int, rest: Text)
    requires 0 <= c <= 0x10_FFFF && !(0xD800 <= c <= 0xDFFF)
    ensures Encode(Units(c) + rest) == (if c < 0x1_0000 then EncodeUnit(c) else EncodePair(c)) + Encode(rest)
  {
    hide EncodeUnit, EncodePair;
    var s := Units(c) + rest;
    if c < 0x1_0000 {
      assert s[0] == c && s[1..] == rest;
    } else {
      assert s[0] == 0xD800 + (c - 0x1_0000) / 0x400 && s[1] == 0xDC00 + (c - 0x1_0000) % 0x400;
      assert PairAt(s) && s[2..] == rest;
      assert CodePoint(s[0], s[1]) == c;
    }
  }

  /** Whatever decodes to a string is its encoding: there are no overlong forms. */
  lemma {:induction false} EncodeDecode(b: Bytes)
    requires Decode(b).Some?
    ensures Encode(Decode(b).value) == b
    decreases |b|
  {
    hide First, EncodeUnit, EncodePair, Units;
    if b != [] {
      FirstFits(b);
      var (c, n) := First(b).value;
      EncodeDecode(b[n..]);
      EncodeFirst(b);
      EncodeUnits(c, Decode(b[n..]).value);
      assert b == b[..n] + b[n..];
    }
  }

  /** The bytes counted for a string of paired surrogates are those of the one
      byte sequence that decodes to it. */
  lemma Utf8LenExact(s: Text, b: Bytes)
    requires Paired(s)
    ensures Decode(b) == Some(s) <==> b == Encode(s)
    ensures Decode(b) == Some(s) ==> |b| == Utf8Len(s)
  {
    hide Encode, Decode, Paired, Utf8Len;
    DecodeEncode(s);
    Utf8LenIsSize(s);
    if Decode(b) == Some(s) {
      EncodeDecode(b);
    }
  }
}

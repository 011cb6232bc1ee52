/** Strings as the program sees them: sequences of UTF-16 code units. */
module Texts {
  datatype Option<+T> = None | Some(value: T)

  type Unit = c: int | 0 <= c < 0x1_0000

  type Text = seq<Unit>

  const LF: Unit := 10
  const QUOTE: Unit := 34
  const COMMA: Unit := 44
  const COLON: Unit := 58
  const LBRACKET: Unit := 91
  const BACKSLASH: Unit := 92
  const RBRACKET: Unit := 93
  const LBRACE: Unit := 123
  const RBRACE: Unit := 125

  predicate High(u: Unit) {
    0xD800 <= u <= 0xDBFF
  }

  predicate Low(u: Unit) {
    0xDC00 <= u <= 0xDFFF
  }

  lemma Assoc3(a: Text, b: Text, c: Text)
    ensures a + b + c == a + (b + c)
  {
  }

  lemma Assoc4(a: Text, b: Text, c: Text, d: Text)
    ensures a + b + c + d == a + (b + (c + d))
  {
  }

  // ---------------------------------------------------------------- scalars

  /** Every surrogate is half of a pair: a high one is followed by a low one
      and a low one preceded by a high one. */
  predicate Paired(s: Text) {
    && (forall i :: 0 <= i < |s| && High(s[i]) ==> i + 1 < |s| && Low(s[i + 1]))
    && (forall i :: 0 <= i < |s| && Low(s[i]) ==> 0 < i && High(s[i - 1]))
  }

  lemma PlainPaired(s: Text)
    requires forall i :: 0 <= i < |s| ==> s[i] < 0xD800
    ensures Paired(s)
  {
  }

  /** The index loop with its early exit; it skips the second half of a pair. */
  method AssertUnicodeScalarString(value: Text) returns (ok: bool)
    ensures ok <==> Paired(value)
  {
    var index := 0;
    while index < |value|
      invariant 0 <= index <= |value|
      invariant forall i :: 0 <= i < index && High(value[i]) ==> i + 1 < index && Low(value[i + 1])
      invariant forall i :: 0 <= i < index && Low(value[i]) ==> 0 < i && High(value[i - 1])
    {
      var code := value[index];
      if High(code) {
        if index + 1 >= |value| || !Low(value[index + 1]) {
          return false;
        }
        index := index + 1;
      } else if Low(code) {
        assert !(0 < index && High(value[index - 1]));
        return false;
      }
      index := index + 1;
    }
    return true;
  }

  // ------------------------------------------------------------- UTF-8 size

  predicate PairAt(s: Text) {
    |s| >= 2 && High(s[0]) && Low(s[1])
  }

  function UnitBytes(u: Unit): nat {
    if u < 0x80 then 1 else if u < 0x800 then 2 else 3
  }

  /** The UTF-8 length of a string; an unpaired surrogate counts three bytes. */
  function Utf8Len(s: Text): nat
    decreases |s|
  {
    if s == [] then 0
    else if PairAt(s) then 4 + Utf8Len(s[2..])
    else UnitBytes(s[0]) + Utf8Len(s[1..])
  }

  /** Length is additive wherever the cut does not split a pair. */
  lemma {:induction false} Utf8LenAppend(a: Text, b: Text)
    requires a == [] || b == [] || !High(a[|a| - 1]) || !Low(b[0])
    ensures Utf8Len(a + b) == Utf8Len(a) + Utf8Len(b)
    decreases |a|
  {
    if a == [] {
      assert a + b == b;
    } else if b == [] {
      assert a + b == a;
    } else if PairAt(a) {
      assert (a + b)[2..] == a[2..] + b;
      Utf8LenAppend(a[2..], b);
    } else {
      assert (a + b)[1..] == a[1..] + b;
      Utf8LenAppend(a[1..], b);
    }
  }

  // ------------------------------------------------- quoting and unquoting

  function HexDigit(n: nat): Unit
    requires n < 16
  {
    if n < 10 then 48 + n else 87 + n
  }

  predicate IsHex(u: Unit) {
    48 <= u <= 57 || 97 <= u <= 102 || 65 <= u <= 70
  }

  function HexValue(u: Unit): (n: nat)
    requires IsHex(u)
    ensures n < 16
  {
    if u <= 57 then u - 48 else if u <= 70 then u - 55 else u - 87
  }

  function Hex4(u: Unit): (t: Text)
    ensures |t| == 4
  {
    [HexDigit(u / 4096), HexDigit(u / 256 % 16), HexDigit(u / 16 % 16), HexDigit(u % 16)]
  }

  function FromHex4(t: Text): Unit
    requires |t| == 4 && IsHex(t[0]) && IsHex(t[1]) && IsHex(t[2]) && IsHex(t[3])
  {
    ((HexValue(t[0]) * 16 + HexValue(t[1])) * 16 + HexValue(t[2])) * 16 + HexValue(t[3])
  }

  lemma Hex4RoundTrip(u: Unit)
    ensures IsHex(Hex4(u)[0]) && IsHex(Hex4(u)[1]) && IsHex(Hex4(u)[2]) && IsHex(Hex4(u)[3])
    ensures FromHex4(Hex4(u)) == u
  {
    forall n | 0 <= n < 16 ensures IsHex(HexDigit(n)) && HexValue(HexDigit(n)) == n {
    }
    var a, b := u / 16, u / 256;
    assert a / 16 == b && b / 16 == u / 4096;
    assert u == a * 16 + u % 16 && a == b * 16 + a % 16 && b == u / 4096 * 16 + b % 16;
  }

  /** How one unit outside a surrogate pair is written inside quotes. */
  function EscapeUnit(u: Unit): Text {
    if u == QUOTE then [BACKSLASH, QUOTE]
    else if u == BACKSLASH then [BACKSLASH, BACKSLASH]
    else if u == 8 then [BACKSLASH, 98]
    else if u == 12 then [BACKSLASH, 102]
    else if u == LF then [BACKSLASH, 110]
    else if u == 13 then [BACKSLASH, 114]
    else if u == 9 then [BACKSLASH, 116]
    else if u < 0x20 || High(u) || Low(u) then [BACKSLASH, 117] + Hex4(u)
    else [u]
  }

  function Escaped(s: Text): Text
    decreases |s|
  {
    if s == [] then []
    else if PairAt(s) then s[..2] + Escaped(s[2..])
    else EscapeUnit(s[0]) + Escaped(s[1..])
  }

  function Quote(s: Text): Text {
    [QUOTE] + Escaped(s) + [QUOTE]
  }

  /** The table of section 25.5.4.3 of ECMA-262: quote, backslash, \b, \t, \n,
      \f and \r, and every other unit outside a pair as it is or in hexadecimal. */
  lemma EscapeTable(u: Unit)
    ensures EscapeUnit(34) == [92, 34] && EscapeUnit(92) == [92, 92]
    ensures EscapeUnit(8) == [92, 98] && EscapeUnit(9) == [92, 116] && EscapeUnit(10) == [92, 110]
    ensures EscapeUnit(12) == [92, 102] && EscapeUnit(13) == [92, 114]
    ensures 0x20 <= u && u != 34 && u != 92 && !(0xD800 <= u <= 0xDFFF) ==> EscapeUnit(u) == [u]
    ensures (u < 0x20 && u != 8 && u != 9 && u != 10 && u != 12 && u != 13) || 0xD800 <= u <= 0xDFFF ==>
              EscapeUnit(u) == [92, 117] + Hex4(u)
  {
  }

  /** Four hexadecimal digits, the highest first, in lower case: 001f, 0b5e and d8ac. */
  lemma HexInLowerCase(u: Unit)
    ensures forall i :: 0 <= i < 4 ==> 48 <= Hex4(u)[i] <= 57 || 97 <= Hex4(u)[i] <= 102
    ensures Hex4(0x001F) == [48, 48, 49, 102] && Hex4(0x0B5E) == [48, 98, 53, 101]
    ensures Hex4(0xD8AC) == [100, 56, 97, 99]
  {
  }

  datatype Read<+T> = Fail | Got(value: T, rest: Text)

  function SimpleEscape(e: Unit): Option<Unit> {
    if e == QUOTE || e == BACKSLASH || e == 47 then Some(e)
    else if e == 98 then Some(8)
    else if e == 102 then Some(12)
    else if e == 110 then Some(LF)
    else if e == 114 then Some(13)
    else if e == 116 then Some(9)
    else None
  }

  function Prepend(u: Unit, r: Read<Text>): (p: Read<Text>)
    ensures p.Got? <==> r.Got?
    ensures p.Got? ==> p.rest == r.rest && p.value == [u] + r.value
  {
    if r.Fail? then Fail else Got([u] + r.value, r.rest)
  }

  /** Decodes a string whose opening quote has been read (section 7 of RFC 8259). */
  function Unquote(t: Text): (r: Read<Text>)
    ensures r.Got? ==> |r.rest| < |t|
    decreases |t|
  {
    if t == [] then Fail
    else if t[0] == QUOTE then Got([], t[1..])
    else if t[0] == BACKSLASH then
      if |t| < 2 then Fail
      else if t[1] == 117 then
        if |t| >= 6 && IsHex(t[2]) && IsHex(t[3]) && IsHex(t[4]) && IsHex(t[5])
        then Prepend(FromHex4(t[2..6]), Unquote(t[6..]))
        else Fail
      else
        match SimpleEscape(t[1])
        case None => Fail
        case Some(u) => Prepend(u, Unquote(t[2..]))
    else if t[0] < 0x20 then Fail
    else Prepend(t[0], Unquote(t[1..]))
  }

  lemma UnquoteUnit(u: Unit, tail: Text)
    ensures Unquote(EscapeUnit(u) + tail) == Prepend(u, Unquote(tail))
  {
    var e := EscapeUnit(u);
    var t := e + tail;
    assert t[|e|..] == tail;
    if |e| == 6 {
      assert t[2..6] == Hex4(u);
      Hex4RoundTrip(u);
    }
  }

  lemma UnquotePlain(u: Unit, tail: Text)
    requires u >= 0x20 && u != QUOTE && u != BACKSLASH
    ensures Unquote([u] + tail) == Prepend(u, Unquote(tail))
  {
    assert ([u] + tail)[1..] == tail;
  }

  lemma UnquotePair(s: Text, inner: Text, rest: Text)
    requires PairAt(s) && Unquote(inner) == Got(s[2..], rest)
    ensures Unquote(s[..2] + inner) == Got(s, rest)
  {
    UnquotePlain(s[1], inner);
    UnquotePlain(s[0], [s[1]] + inner);
    assert s[..2] + inner == [s[0]] + ([s[1]] + inner);
    assert s == [s[0]] + ([s[1]] + s[2..]);
  }

  lemma UnquoteFirst(s: Text, inner: Text, rest: Text)
    requires s != [] && Unquote(inner) == Got(s[1..], rest)
    ensures Unquote(EscapeUnit(s[0]) + inner) == Got(s, rest)
  {
    UnquoteUnit(s[0], inner);
    assert s == [s[0]] + s[1..];
  }

  /** Every string survives quoting, unpaired surrogates included. */
  lemma {:induction false} UnquoteQuoted(s: Text, rest: Text)
    ensures Unquote(Escaped(s) + ([QUOTE] + rest)) == Got(s, rest)
    decreases |s|
  {
    var tail := [QUOTE] + rest;
    if s == [] {
      assert Escaped(s) + tail == tail;
      assert tail[1..] == rest;
    } else if PairAt(s) {
      UnquoteQuoted(s[2..], rest);
      Assoc3(s[..2], Escaped(s[2..]), tail);
      UnquotePair(s, Escaped(s[2..]) + tail, rest);
    } else {
      UnquoteQuoted(s[1..], rest);
      Assoc3(EscapeUnit(s[0]), Escaped(s[1..]), tail);
      UnquoteFirst(s, Escaped(s[1..]) + tail, rest);
    }
  }

  /** A quoted string is never shorter, in UTF-8 bytes, than the string plus its quotes. */
  lemma {:induction false} EscapedNotShorter(s: Text)
    ensures Utf8Len(s) <= Utf8Len(Escaped(s))
    decreases |s|
  {
    if s == [] {
    } else if PairAt(s) {
      EscapedNotShorter(s[2..]);
      assert Escaped(s)[2..] == Escaped(s[2..]);
    } else {
      EscapedNotShorter(s[1..]);
      EscapeUnitBytes(s[0], Escaped(s[1..]));
    }
  }

  lemma EscapeUnitBytes(u: Unit, tail: Text)
    ensures Utf8Len(EscapeUnit(u) + tail) == Utf8Len(EscapeUnit(u)) + Utf8Len(tail)
    ensures UnitBytes(u) <= Utf8Len(EscapeUnit(u))
  {
    Utf8LenAppend(EscapeUnit(u), tail);
    var e := EscapeUnit(u);
    if |e| == 6 {
      assert e == [e[0]] + [e[1]] + [e[2]] + [e[3]] + [e[4]] + [e[5]];
      Ascii(e);
    } else if |e| == 2 {
      Ascii(e);
    }
  }

  lemma {:induction false} Ascii(e: Text)
    requires forall i :: 0 <= i < |e| ==> e[i] < 0x80
    ensures Utf8Len(e) == |e|
    decreases |e|
  {
    if e != [] {
      Ascii(e[1..]);
    }
  }

  lemma QuoteBytes(s: Text)
    ensures Utf8Len(Quote(s)) == Utf8Len(Escaped(s)) + 2
    ensures Utf8Len(s) + 2 <= Utf8Len(Quote(s))
  {
    EscapedNotShorter(s);
    Utf8LenAppend([QUOTE] + Escaped(s), [QUOTE]);
    Utf8LenAppend([QUOTE], Escaped(s));
    Ascii([QUOTE]);
  }

  // ----------------------------------------------------------- checked values

  /** The largest integer a double holds exactly together with its successor. */
  const MAX_SAFE := 9_007_199_254_740_991

  /** A string literal as code units. */
  function Chars(s: string): Text {
    seq(|s|, i requires 0 <= i < |s| => if (s[i] as int) < 0x1_0000 then s[i] as int else 0)
  }

  /** White space and line ends as `trim` removes them. */
  predicate Space(u: Unit) {
    || 9 <= u <= 13 || u == 32 || u == 160 || u == 0x1680 || 0x2000 <= u <= 0x200A || u == 0x2028 || u == 0x2029
    || u == 0x202F || u == 0x205F || u == 0x3000 || u == 0xFEFF
  }

  /** Text without NUL, within a size in bytes, and unless allowed not blank. */
  predicate Bounded(t: Text, maxBytes: nat, empty: bool) {
    0 !in t && Utf8Len(t) <= maxBytes && (empty || exists i :: 0 <= i < |t| && !Space(t[i]))
  }

  predicate Letter(u: Unit) {
    48 <= u <= 57 || 65 <= u <= 90 || 97 <= u <= 122
  }

  predicate Identifier(t: Text) {
    0 < |t| <= 160 && Letter(t[0]) && forall i :: 0 <= i < |t| ==>
        Letter(t[i]) || t[i] == 95 || t[i] == 46 || t[i] == 58 || t[i] == 45
  }

  // ------------------------------------------------------------- ordering

  /** Lexicographic order of code units, the order of the `<` operator on strings. */
  predicate Less(a: Text, b: Text)
    decreases |a|
  {
    b != [] && (a == [] || a[0] < b[0] || (a[0] == b[0] && Less(a[1..], b[1..])))
  }

  /** Up to `k` the texts agree; there `a` ends and `b` goes on, or `a` has the smaller unit. */
  predicate DiffersAt(a: Text, b: Text, k: nat) {
    && k <= |a| && k <= |b| && a[..k] == b[..k]
    && ((k == |a| && k < |b|) || (k < |a| && k < |b| && a[k] as int < b[k] as int))
  }

  ghost predicate Before(a: Text, b: Text) {
    exists k: nat :: DiffersAt(a, b, k)
  }

  /** The recursive comparison decides by the first difference, as numbers. */
  lemma {:induction false} LessIsBefore(a: Text, b: Text)
    ensures Less(a, b) <==> Before(a, b)
    decreases |a|
  {
    if Less(a, b) {
      if a == [] {
        assert DiffersAt(a, b, 0);
      } else if a[0] != b[0] {
        assert DiffersAt(a, b, 0);
      } else {
        LessIsBefore(a[1..], b[1..]);
        var k: nat :| DiffersAt(a[1..], b[1..], k);
        LaterDifference(a, b, k);
      }
    } else if k: nat :| DiffersAt(a, b, k) {
      if k > 0 {
        assert a[..k][0] == b[..k][0];
        assert a[1..][..k - 1] == a[..k][1..] && b[1..][..k - 1] == b[..k][1..];
        assert DiffersAt(a[1..], b[1..], k - 1);
        LessIsBefore(a[1..], b[1..]);
      }
    }
  }

  lemma LaterDifference(a: Text, b: Text, k: nat)
    requires a != [] && b != [] && a[0] == b[0] && DiffersAt(a[1..], b[1..], k)
    ensures DiffersAt(a, b, k + 1)
  {
    assert a[..k + 1] == [a[0]] + a[1..][..k] && b[..k + 1] == [b[0]] + b[1..][..k];
  }

  lemma {:induction false} LessTotal(a: Text, b: Text)
    ensures Less(a, b) || a == b || Less(b, a)
    ensures !(Less(a, b) && Less(b, a))
    decreases |a|
  {
    if a != [] && b != [] {
      LessTotal(a[1..], b[1..]);
      assert a == [a[0]] + a[1..] && b == [b[0]] + b[1..];
    }
  }

  lemma {:induction false} LessTransitive(a: Text, b: Text, c: Text)
    requires Less(a, b) && Less(b, c)
    ensures Less(a, c)
    decreases |a|
  {
    if a != [] && b[0] == a[0] && c[0] == b[0] {
      LessTransitive(a[1..], b[1..], c[1..]);
    }
  }
}

/** JSON values, their compact printed form and a reader for it. */
module Json {
  import opened Texts

  predicate IsNumUnit(u: Unit) {
    48 <= u <= 57 || u == 43 || u == 45 || u == 46 || u == 69 || u == 101
  }

  /** Printed numbers start with a digit or a minus sign and stay in one alphabet. */
  predicate IsNumeral(t: Text) {
    t != [] && (48 <= t[0] <= 57 || t[0] == 45) && forall i :: 0 <= i < |t| ==> IsNumUnit(t[i])
  }

  type Numeral = t: Text | IsNumeral(t) witness [48]

  /** A number is identified with the text the printer gives it: number
      printing is injective on the finite numbers other than negative zero. */
  datatype Value =
    | Null
    | Bool(b: bool)
    | Num(lexeme: Numeral)
    | Str(s: Text)
    | Arr(items: seq<Value>)
    | Obj(members: seq<Member>)

  datatype Entry<+T> = Entry(name: Text, value: T)

  type Member = Entry<Value>

  const NULL_WORD: Text := [110, 117, 108, 108]
  const TRUE_WORD: Text := [116, 114, 117, 101]
  const FALSE_WORD: Text := [102, 97, 108, 115, 101]

  predicate Distinct<T>(members: seq<Entry<T>>) {
    forall i, j :: 0 <= i < j < |members| ==> members[i].name != members[j].name
  }

  /** No object has two members of one name. */
  predicate WellFormed(v: Value) {
    match v
    case Arr(items) => forall i :: 0 <= i < |items| ==> WellFormed(items[i])
    case Obj(members) => Distinct(members) && forall i :: 0 <= i < |members| ==> WellFormed(members[i].value)
    case _ => true
  }

  // -------------------------------------------------------------- printing

  function Print(v: Value): Text
    decreases v, 1
  {
    match v
    case Null => NULL_WORD
    case Bool(b) => if b then TRUE_WORD else FALSE_WORD
    case Num(l) => l
    case Str(s) => Quote(s)
    case Arr(items) => [LBRACKET] + PrintItems(items) + [RBRACKET]
    case Obj(members) => [LBRACE] + PrintMembers(members) + [RBRACE]
  }

  function PrintItems(items: seq<Value>): Text
    decreases items, 0
  {
    if items == [] then []
    else if |items| == 1 then Print(items[0])
    else Print(items[0]) + [COMMA] + PrintItems(items[1..])
  }

  function PrintMember(m: Member): Text
    decreases m, 2
  {
    Quote(m.name) + [COLON] + Print(m.value)
  }

  function PrintMembers(members: seq<Member>): Text
    decreases members, 0
  {
    if members == [] then []
    else if |members| == 1 then PrintMember(members[0])
    else PrintMember(members[0]) + [COMMA] + PrintMembers(members[1..])
  }

  // --------------------------------------------------------------- reading

  function LongestNumeral(t: Text): (l: Text)
    ensures l <= t
    ensures forall i :: 0 <= i < |l| ==> IsNumUnit(l[i])
  {
    if t == [] || !IsNumUnit(t[0]) then [] else [t[0]] + LongestNumeral(t[1..])
  }

  function ParseWord(t: Text): (r: Read<Value>)
    ensures r.Got? ==> |r.rest| < |t|
  {
    if NULL_WORD <= t then Got(Null, t[4..])
    else if TRUE_WORD <= t then Got(Bool(true), t[4..])
    else if FALSE_WORD <= t then Got(Bool(false), t[5..])
    else Fail
  }

  function Parse(t: Text): (r: Read<Value>)
    ensures r.Got? ==> |r.rest| < |t|
    decreases |t|, 0
  {
    if t == [] then Fail
    else if t[0] == QUOTE then
      match Unquote(t[1..])
      case Fail => Fail
      case Got(s, rest) => Got(Str(s), rest)
    else if t[0] == LBRACKET then
      if |t| > 1 && t[1] == RBRACKET then Got(Arr([]), t[2..])
      else
        match ParseItems(t[1..])
        case Fail => Fail
        case Got(items, rest) => Got(Arr(items), rest)
    else if t[0] == LBRACE then
      if |t| > 1 && t[1] == RBRACE then Got(Obj([]), t[2..])
      else
        match ParseMembers(t[1..])
        case Fail => Fail
        case Got(members, rest) => Got(Obj(members), rest)
    else if IsNumUnit(t[0]) then
      var l := LongestNumeral(t);
      if IsNumeral(l) then Got(Num(l), t[|l|..]) else Fail
    else ParseWord(t)
  }

  /** One or more items up to the closing bracket. */
  function ParseItems(t: Text): (r: Read<seq<Value>>)
    ensures r.Got? ==> |r.rest| < |t|
    decreases |t|, 1
  {
    match Parse(t)
    case Fail => Fail
    case Got(v, rest) =>
      if rest == [] then Fail
      else if rest[0] == RBRACKET then Got([v], rest[1..])
      else if rest[0] == COMMA then
        match ParseItems(rest[1..])
        case Fail => Fail
        case Got(more, end) => Got([v] + more, end)
      else Fail
  }

  function ParseMember(t: Text): (r: Read<Member>)
    ensures r.Got? ==> |r.rest| < |t|
    decreases |t|, 1
  {
    if t == [] || t[0] != QUOTE then Fail
    else
      match Unquote(t[1..])
      case Fail => Fail
      case Got(name, rest) =>
        if rest == [] || rest[0] != COLON then Fail
        else
          match Parse(rest[1..])
          case Fail => Fail
          case Got(v, end) => Got(Entry(name, v), end)
  }

  /** One or more members up to the closing brace. */
  function ParseMembers(t: Text): (r: Read<seq<Member>>)
    ensures r.Got? ==> |r.rest| < |t|
    decreases |t|, 2
  {
    match ParseMember(t)
    case Fail => Fail
    case Got(m, rest) =>
      if rest == [] then Fail
      else if rest[0] == RBRACE then Got([m], rest[1..])
      else if rest[0] == COMMA then
        match ParseMembers(rest[1..])
        case Fail => Fail
        case Got(more, end) => Got([m] + more, end)
      else Fail
  }

  // ------------------------------------------------------------ round trip

  predicate Delimited(rest: Text) {
    rest == [] || !IsNumUnit(rest[0])
  }

  lemma {:induction false} NumeralStops(l: Text, rest: Text)
    requires forall i :: 0 <= i < |l| ==> IsNumUnit(l[i])
    requires Delimited(rest)
    ensures LongestNumeral(l + rest) == l
  {
    if l == [] {
      assert l + rest == rest;
    } else {
      NumeralStops(l[1..], rest);
      assert (l + rest)[1..] == l[1..] + rest;
    }
  }

  /** The reader inverts the printer on every well-formed value, whatever
      text follows, and stops exactly where the printed value ends. */
  lemma {:induction false} ParsePrint(v: Value, rest: Text)
    requires WellFormed(v) && Delimited(rest)
    ensures Parse(Print(v) + rest) == Got(v, rest)
    decreases v, 1
  {
    hide Unquote, LongestNumeral, Parse;
    match v
    case Null => ParsePrintWord(v, rest);
    case Bool(_) => ParsePrintWord(v, rest);
    case Num(l) => ParsePrintNumeral(l, rest);
    case Str(s) => ParsePrintString(s, rest);
    case Arr(items) =>
      if items == [] {
        ParseEmpty(rest);
        assert Print(v) == [LBRACKET, RBRACKET];
      } else {
        ParsePrintItems(items, rest);
        PrintStart(items[0]);
        assert PrintItems(items)[0] == Print(items[0])[0];
        ParseBracketed(items, PrintItems(items), rest);
      }
    case Obj(members) =>
      if members == [] {
        ParseEmpty(rest);
        assert Print(v) == [LBRACE, RBRACE];
      } else {
        ParsePrintMembers(members, rest);
        assert PrintMembers(members)[0] == QUOTE;
        ParseBraced(members, PrintMembers(members), rest);
      }
  }

  lemma ParseBracketed(items: seq<Value>, body: Text, rest: Text)
    requires body != [] && body[0] != RBRACKET
    requires ParseItems(body + ([RBRACKET] + rest)) == Got(items, rest)
    ensures Parse([LBRACKET] + body + [RBRACKET] + rest) == Got(Arr(items), rest)
  {
    hide ParseItems, ParseMembers, ParseWord, Unquote, LongestNumeral;
    assert ([LBRACKET] + body + [RBRACKET] + rest)[1..] == body + ([RBRACKET] + rest);
  }

  lemma ParseBraced(members: seq<Member>, body: Text, rest: Text)
    requires body != [] && body[0] != RBRACE
    requires ParseMembers(body + ([RBRACE] + rest)) == Got(members, rest)
    ensures Parse([LBRACE] + body + [RBRACE] + rest) == Got(Obj(members), rest)
  {
    hide ParseItems, ParseMembers, ParseWord, Unquote, LongestNumeral;
    assert ([LBRACE] + body + [RBRACE] + rest)[1..] == body + ([RBRACE] + rest);
  }

  lemma ParseEmpty(rest: Text)
    ensures Parse([LBRACKET, RBRACKET] + rest) == Got(Arr([]), rest)
    ensures Parse([LBRACE, RBRACE] + rest) == Got(Obj([]), rest)
  {
    assert ([LBRACKET, RBRACKET] + rest)[2..] == rest;
    assert ([LBRACE, RBRACE] + rest)[2..] == rest;
  }

  lemma ParsePrintNumeral(l: Numeral, rest: Text)
    requires Delimited(rest)
    ensures Parse(l + rest) == Got(Num(l), rest)
  {
    NumeralStops(l, rest);
    assert (l + rest)[|l|..] == rest;
  }

  lemma ParsePrintString(s: Text, rest: Text)
    ensures Parse(Quote(s) + rest) == Got(Str(s), rest)
  {
    assert (Quote(s) + rest)[1..] == Escaped(s) + ([QUOTE] + rest);
    UnquoteQuoted(s, rest);
  }

  lemma ParsePrintWord(v: Value, rest: Text)
    requires v.Null? || v.Bool?
    ensures Parse(Print(v) + rest) == Got(v, rest)
  {
    var t := Print(v) + rest;
    assert t[0] == Print(v)[0];
    assert t[|Print(v)|..] == rest;
    assert Parse(t) == ParseWord(t);
  }

  lemma PrintStart(v: Value)
    requires WellFormed(v)
    ensures Print(v) != [] && Print(v)[0] != RBRACKET
  {
  }

  lemma {:induction false} ParsePrintItems(items: seq<Value>, rest: Text)
    requires items != [] && forall i :: 0 <= i < |items| ==> WellFormed(items[i])
    ensures ParseItems(PrintItems(items) + ([RBRACKET] + rest)) == Got(items, rest)
    decreases items, 0
  {
    var tail := [RBRACKET] + rest;
    if |items| == 1 {
      ParsePrint(items[0], tail);
      assert tail[1..] == rest;
      assert [items[0]] == items;
    } else {
      var inner := PrintItems(items[1..]) + tail;
      Assoc4(Print(items[0]), [COMMA], PrintItems(items[1..]), tail);
      ParsePrint(items[0], [COMMA] + inner);
      ParsePrintItems(items[1..], rest);
      assert ([COMMA] + inner)[1..] == inner;
      assert items == [items[0]] + items[1..];
    }
  }

  lemma {:induction false} ParsePrintMember(m: Member, rest: Text)
    requires WellFormed(m.value) && Delimited(rest)
    ensures ParseMember(PrintMember(m) + rest) == Got(m, rest)
    decreases m, 2
  {
    ParsePrint(m.value, rest);
    ParseNamed(m.name, m.value, Print(m.value), rest);
  }

  lemma ParseNamed(name: Text, v: Value, body: Text, rest: Text)
    requires Parse(body + rest) == Got(v, rest)
    ensures ParseMember(Quote(name) + [COLON] + body + rest) == Got(Entry(name, v), rest)
  {
    hide Parse;
    var after := [COLON] + (body + rest);
    var t := Quote(name) + [COLON] + body + rest;
    assert t[1..] == Escaped(name) + ([QUOTE] + after);
    UnquoteQuoted(name, after);
    assert after[1..] == body + rest;
  }

  lemma {:induction false} ParsePrintMembers(members: seq<Member>, rest: Text)
    requires members != [] && forall i :: 0 <= i < |members| ==> WellFormed(members[i].value)
    ensures ParseMembers(PrintMembers(members) + ([RBRACE] + rest)) == Got(members, rest)
    decreases members, 0
  {
    var tail := [RBRACE] + rest;
    if |members| == 1 {
      ParsePrintMember(members[0], tail);
      ParseMembersLast(members[0], PrintMember(members[0]) + tail, rest);
      assert [members[0]] == members;
    } else {
      var inner := PrintMembers(members[1..]) + tail;
      ParsePrintMember(members[0], [COMMA] + inner);
      ParsePrintMembers(members[1..], rest);
      ParseMembersStep(members[0], members[1..], PrintMember(members[0]) + ([COMMA] + inner), inner, rest);
      PrintMembersSplit(members, tail);
      assert members == [members[0]] + members[1..];
    }
  }

  lemma PrintMembersSplit(members: seq<Member>, tail: Text)
    requires |members| > 1
    ensures PrintMembers(members) + tail == PrintMember(members[0]) + ([COMMA] + (PrintMembers(members[1..]) + tail))
  {
    Assoc4(PrintMember(members[0]), [COMMA], PrintMembers(members[1..]), tail);
  }

  lemma ParseMembersLast(m: Member, t: Text, rest: Text)
    requires ParseMember(t) == Got(m, [RBRACE] + rest)
    ensures ParseMembers(t) == Got([m], rest)
  {
    assert ([RBRACE] + rest)[1..] == rest;
  }

  lemma ParseMembersStep(m: Member, more: seq<Member>, t: Text, inner: Text, rest: Text)
    requires ParseMember(t) == Got(m, [COMMA] + inner)
    requires ParseMembers(inner) == Got(more, rest)
    ensures ParseMembers(t) == Got([m] + more, rest)
  {
    assert ([COMMA] + inner)[1..] == inner;
  }

  // ----------------------------------------------------------------- sizes

  function Max(a: nat, b: nat): nat {
    if a < b then b else a
  }

  /** How deep values nest below the root: a scalar or an empty container has depth 0. */
  function Depth(v: Value): nat
    decreases v, 1
  {
    match v
    case Arr(items) => ItemsDepth(items)
    case Obj(members) => MembersDepth(members)
    case _ => 0
  }

  function ItemsDepth(items: seq<Value>): nat
    decreases items, 0
  {
    if items == [] then 0 else Max(1 + Depth(items[0]), ItemsDepth(items[1..]))
  }

  function MembersDepth(members: seq<Member>): nat
    decreases members, 0
  {
    if members == [] then 0 else Max(1 + Depth(members[0].value), MembersDepth(members[1..]))
  }

  lemma {:induction false} ItemDepth(items: seq<Value>, i: nat)
    requires i < |items|
    ensures Depth(items[i]) < ItemsDepth(items)
  {
    if i > 0 {
      ItemDepth(items[1..], i - 1);
    }
  }

  lemma {:induction false} MemberDepth(members: seq<Member>, i: nat)
    requires i < |members|
    ensures Depth(members[i].value) < MembersDepth(members)
  {
    if i > 0 {
      MemberDepth(members[1..], i - 1);
    }
  }

  /** Printed text is not empty and ends in no high surrogate, so UTF-8 lengths add up. */
  lemma {:induction false} PrintEnds(v: Value)
    ensures Print(v) != [] && !High(Print(v)[|Print(v)| - 1])
  {
    match v
    case Num(l) => assert IsNumUnit(l[|l| - 1]);
    case _ =>
  }
}

/** JSON texts as derivations of the grammar of RFC 8259, and what the scan does on them. */
module Documents {
  import opened Texts
  import opened Json
  import opened Scanner

  /** A derivation of `value`; every place where the grammar allows white
      space carries the white space the text has there. */
  datatype Doc =
    | Word(word: Text)
    | Number(minus: bool, whole: Text, fraction: Text, exponent: Text)
    | Chars(raw: Text)
    | List(items: seq<Padded>, gap: Text)
    | Record(pairs: seq<Pair>, gap: Text)

  datatype Padded = Padded(pre: Text, doc: Doc, post: Text)

  datatype Pair = Pair(pre: Text, raw: Text, mid: Text, item: Padded)

  // -------------------------------------------------------------- grammar

  predicate Blank(t: Text) {
    forall i :: 0 <= i < |t| ==> t[i] == 32 || t[i] == 9 || t[i] == LF || t[i] == 13
  }

  predicate Digits(t: Text) {
    t != [] && forall i :: 0 <= i < |t| ==> 48 <= t[i] <= 57
  }

  /** The parts of a number (section 6): no leading zero, a point or an
      exponent mark always followed by digits. */
  predicate NumberParts(whole: Text, fraction: Text, exponent: Text) {
    && Digits(whole) && (whole[0] == 48 ==> |whole| == 1)
    && (fraction == [] || (fraction[0] == 46 && Digits(fraction[1..])))
    && (exponent == [] ||
          (&& (exponent[0] == 69 || exponent[0] == 101)
           && (|| Digits(exponent[1..])
               || (|exponent| > 1 && (exponent[1] == 43 || exponent[1] == 45) && Digits(exponent[2..])))))
  }

  function NumberText(minus: bool, whole: Text, fraction: Text, exponent: Text): Text {
    (if minus then [45] else []) + whole + fraction + exponent
  }

  /** The units between the quotes of a string (section 7). */
  predicate StringBody(raw: Text) {
    Unquote(raw + [QUOTE]).Got? && Unquote(raw + [QUOTE]).rest == []
  }

  function Decoded(raw: Text): Text
    requires StringBody(raw)
  {
    Unquote(raw + [QUOTE]).value
  }

  predicate Grammatical(d: Doc) {
    match d
    case Word(w) => w == NULL_WORD || w == TRUE_WORD || w == FALSE_WORD
    case Number(_, whole, fraction, exponent) => NumberParts(whole, fraction, exponent)
    case Chars(raw) => StringBody(raw)
    case List(items, gap) =>
      Blank(gap) && forall i :: 0 <= i < |items| ==>
          Blank(items[i].pre) && Blank(items[i].post) && Grammatical(items[i].doc)
    case Record(pairs, gap) =>
      && Blank(gap)
      && forall i :: 0 <= i < |pairs| ==>
           && Blank(pairs[i].pre) && StringBody(pairs[i].raw) && Blank(pairs[i].mid)
           && Blank(pairs[i].item.pre) && Blank(pairs[i].item.post) && Grammatical(pairs[i].item.doc)
  }

  function Render(d: Doc): Text
    decreases d, 1
  {
    match d
    case Word(w) => w
    case Number(minus, whole, fraction, exponent) => NumberText(minus, whole, fraction, exponent)
    case Chars(raw) => [QUOTE] + raw + [QUOTE]
    case List(items, gap) => [LBRACKET] + (if items == [] then gap else RenderItems(items)) + [RBRACKET]
    case Record(pairs, gap) => [LBRACE] + (if pairs == [] then gap else RenderPairs(pairs)) + [RBRACE]
  }

  function RenderPadded(p: Padded): Text
    decreases p, 2
  {
    p.pre + Render(p.doc) + p.post
  }

  function RenderItems(items: seq<Padded>): Text
    decreases items, 0
  {
    if items == [] then []
    else if |items| == 1 then RenderPadded(items[0])
    else RenderPadded(items[0]) + [COMMA] + RenderItems(items[1..])
  }

  function RenderPair(p: Pair): Text
    decreases p, 3
  {
    p.pre + ([QUOTE] + p.raw + [QUOTE]) + (p.mid + [COLON]) + RenderPadded(p.item)
  }

  function RenderPairs(pairs: seq<Pair>): Text
    decreases pairs, 0
  {
    if pairs == [] then []
    else if |pairs| == 1 then RenderPair(pairs[0])
    else RenderPair(pairs[0]) + [COMMA] + RenderPairs(pairs[1..])
  }

  // ----------------------------------------------- what should be decided

  /** No object has two members whose names decode alike. */
  predicate NoDuplicates(d: Doc) {
    match d
    case List(items, _) => forall i :: 0 <= i < |items| ==> NoDuplicates(items[i].doc)
    case Record(pairs, _) =>
      && (forall i, j :: 0 <= i < j < |pairs| && StringBody(pairs[i].raw) && StringBody(pairs[j].raw) ==>
            Decoded(pairs[i].raw) != Decoded(pairs[j].raw))
      && (forall i :: 0 <= i < |pairs| ==> NoDuplicates(pairs[i].item.doc))
    case _ => true
  }

  /** How many containers enclose the deepest value, itself included if a container. */
  function Nesting(d: Doc): nat
    decreases d, 1
  {
    match d
    case List(items, _) => 1 + ItemsNesting(items)
    case Record(pairs, _) => 1 + PairsNesting(pairs)
    case _ => 0
  }

  function ItemsNesting(items: seq<Padded>): nat
    decreases items, 0
  {
    if items == [] then 0 else Max(Nesting(items[0].doc), ItemsNesting(items[1..]))
  }

  function PairsNesting(pairs: seq<Pair>): nat
    decreases pairs, 0
  {
    if pairs == [] then 0 else Max(Nesting(pairs[0].item.doc), PairsNesting(pairs[1..]))
  }

  // -------------------------------------------- the first fault in the text

  function Verdict(d: Doc, depth: nat): Option<Fault>
    decreases d, 1
  {
    match d
    case List(items, _) => if depth + 1 > MAX_DEPTH then Some(BoundExceeded) else ItemsVerdict(items, depth + 1)
    case Record(pairs, _) => if depth + 1 > MAX_DEPTH then Some(BoundExceeded) else PairsVerdict(pairs, {}, depth + 1)
    case _ => None
  }

  function ItemsVerdict(items: seq<Padded>, depth: nat): Option<Fault>
    decreases items, 0
  {
    if items == [] then None
    else
      var first := Verdict(items[0].doc, depth);
      if first.Some? then first else ItemsVerdict(items[1..], depth)
  }

  function PairsVerdict(pairs: seq<Pair>, seen: set<Text>, depth: nat): Option<Fault>
    decreases pairs, 0
  {
    if pairs == [] then None
    else if !StringBody(pairs[0].raw) || Decoded(pairs[0].raw) in seen then Some(InvalidJson)
    else
      var first := Verdict(pairs[0].item.doc, depth);
      if first.Some? then first else PairsVerdict(pairs[1..], seen + {Decoded(pairs[0].raw)}, depth)
  }

  /** A fault is raised exactly for a repeated name or a container nested too deep. */
  lemma {:induction false} VerdictExact(d: Doc, depth: nat)
    requires Grammatical(d) && depth <= MAX_DEPTH
    ensures Verdict(d, depth).None? <==> NoDuplicates(d) && depth + Nesting(d) <= MAX_DEPTH
    decreases d, 1
  {
    hide StringBody, Decoded, NumberParts, Blank;
    match d
    case List(items, _) =>
      if depth + 1 <= MAX_DEPTH {
        ItemsVerdictExact(items, depth + 1);
      }
    case Record(pairs, _) =>
      if depth + 1 <= MAX_DEPTH {
        PairsVerdictExact(pairs, {}, depth + 1);
      }
    case _ =>
  }

  lemma {:induction false} ItemsVerdictExact(items: seq<Padded>, depth: nat)
    requires depth <= MAX_DEPTH && forall i :: 0 <= i < |items| ==> Grammatical(items[i].doc)
    ensures ItemsVerdict(items, depth).None? <==>
              (forall i :: 0 <= i < |items| ==> NoDuplicates(items[i].doc)) && depth + ItemsNesting(items) <= MAX_DEPTH
    decreases items, 0
  {
    if items != [] {
      VerdictExact(items[0].doc, depth);
      ItemsVerdictExact(items[1..], depth);
      assert forall i :: 0 < i < |items| ==> items[i] == items[1..][i - 1];
    }
  }

  ghost predicate Fresh(pairs: seq<Pair>, seen: set<Text>)
    requires forall i :: 0 <= i < |pairs| ==> StringBody(pairs[i].raw)
  {
    && (forall i :: 0 <= i < |pairs| ==> Decoded(pairs[i].raw) !in seen)
    && (forall i, j :: 0 <= i < j < |pairs| ==> Decoded(pairs[i].raw) != Decoded(pairs[j].raw))
  }

  lemma FreshStep(pairs: seq<Pair>, seen: set<Text>)
    requires pairs != [] && forall i :: 0 <= i < |pairs| ==> StringBody(pairs[i].raw)
    ensures Fresh(pairs, seen) <==> Decoded(pairs[0].raw) !in seen && Fresh(pairs[1..], seen + {Decoded(pairs[0].raw)})
  {
    hide StringBody, Decoded;
    assert forall i :: 0 < i < |pairs| ==> pairs[i] == pairs[1..][i - 1];
    if Decoded(pairs[0].raw) !in seen && Fresh(pairs[1..], seen + {Decoded(pairs[0].raw)}) {
      forall i, j | 0 <= i < j < |pairs| ensures Decoded(pairs[i].raw) != Decoded(pairs[j].raw) {
        assert pairs[1..][j - 1] == pairs[j];
        if i > 0 {
          assert pairs[1..][i - 1] == pairs[i];
        }
      }
    }
  }

  lemma {:induction false} PairsVerdictExact(pairs: seq<Pair>, seen: set<Text>, depth: nat)
    requires depth <= MAX_DEPTH
    requires forall i :: 0 <= i < |pairs| ==> StringBody(pairs[i].raw) && Grammatical(pairs[i].item.doc)
    ensures PairsVerdict(pairs, seen, depth).None? <==>
              && Fresh(pairs, seen) && (forall i :: 0 <= i < |pairs| ==> NoDuplicates(pairs[i].item.doc))
              && depth + PairsNesting(pairs) <= MAX_DEPTH
    decreases pairs, 0
  {
    hide StringBody, Decoded;
    if pairs != [] {
      VerdictExact(pairs[0].item.doc, depth);
      PairsVerdictExact(pairs[1..], seen + {Decoded(pairs[0].raw)}, depth);
      FreshStep(pairs, seen);
      assert forall i :: 0 < i < |pairs| ==> pairs[i] == pairs[1..][i - 1];
    }
  }

  // ------------------------------------------------- the scan on a text

  /** A value may start here: the innermost object, if any, expects no name. */
  ghost predicate AtValue(stack: seq<Frame>) {
    |stack| <= MAX_DEPTH && !KeyExpected(stack)
  }

  ghost function Then(v: Option<Fault>, rest: Text, stack: seq<Frame>): Option<Fault> {
    if v.Some? then v else Scan(rest, stack)
  }

  predicate Plain(u: Unit) {
    u != QUOTE && u != COMMA && u != LBRACE && u != RBRACE && u != LBRACKET && u != RBRACKET
  }

  lemma {:induction false} ScanPlain(t: Text, rest: Text, stack: seq<Frame>)
    requires |stack| <= MAX_DEPTH && forall i :: 0 <= i < |t| ==> Plain(t[i])
    ensures Scan(t + rest, stack) == Scan(rest, stack)
  {
    if t == [] {
      assert t + rest == rest;
    } else {
      assert Drop(t + rest, 1) == t[1..] + rest;
      ScanPlain(t[1..], rest, stack);
    }
  }

  lemma {:induction false} UnquoteExtend(a: Text, b: Text)
    requires Unquote(a).Got?
    ensures Unquote(a + b) == Got(Unquote(a).value, Unquote(a).rest + b)
    ensures Skip(a + b) == |a| - |Unquote(a).rest| - 1
    decreases |a|
  {
    if a[0] == QUOTE {
      assert (a + b)[1..] == a[1..] + b;
    } else if a[0] == BACKSLASH && a[1] == 117 {
      assert (a + b)[6..] == a[6..] + b && (a + b)[2..6] == a[2..6];
      UnquoteExtend(a[6..], b);
      SkipFour((a + b)[2..]);
      assert (a + b)[2..][4..] == a[6..] + b;
    } else if a[0] == BACKSLASH {
      assert (a + b)[2..] == a[2..] + b;
      UnquoteExtend(a[2..], b);
    } else {
      assert (a + b)[1..] == a[1..] + b;
      UnquoteExtend(a[1..], b);
    }
  }

  lemma SkipFour(t: Text)
    requires |t| >= 4 && IsHex(t[0]) && IsHex(t[1]) && IsHex(t[2]) && IsHex(t[3])
    ensures Skip(t) == 4 + Skip(t[4..])
  {
    assert t[1..][1..] == t[2..] && t[2..][1..] == t[3..] && t[3..][1..] == t[4..];
    assert Skip(t[2..]) == 2 + Skip(t[4..]);
  }

  /** A string is one token, and as a name it is looked up decoded. */
  lemma ScanString(raw: Text, rest: Text, stack: seq<Frame>)
    requires StringBody(raw) && |stack| <= MAX_DEPTH
    ensures !KeyExpected(stack) ==> Scan([QUOTE] + raw + [QUOTE] + rest, stack) == Scan(rest, stack)
    ensures KeyExpected(stack) ==>
              var top := stack[|stack| - 1];
              Scan([QUOTE] + raw + [QUOTE] + rest, stack)
              == if Decoded(raw) in top.keys then Some(InvalidJson)
                 else Scan(rest, Replace(stack, InObject(top.keys + {Decoded(raw)}, false)))
  {
    var t := [QUOTE] + raw + [QUOTE] + rest;
    var body := raw + [QUOTE];
    assert t[1..] == body + rest;
    UnquoteExtend(body, rest);
    assert Drop(t, |raw| + 2) == rest;
    assert Take(t[1..], |raw| + 1) == body;
  }

  lemma ScanOpen(open: Unit, frame: Frame, rest: Text, stack: seq<Frame>)
    requires (open == LBRACE && frame == InObject({}, true)) || (open == LBRACKET && frame == InArray)
    ensures Scan([open] + rest, stack)
         == if |stack| + 1 > MAX_DEPTH then Some(BoundExceeded) else Scan(rest, stack + [frame])
  {
    assert Drop([open] + rest, 1) == rest;
  }

  lemma ScanClose(close: Unit, frame: Frame, rest: Text, stack: seq<Frame>)
    requires (close == RBRACE || close == RBRACKET) && |stack| <= MAX_DEPTH
    ensures Scan([close] + rest, stack + [frame]) == Scan(rest, stack)
  {
    assert Drop([close] + rest, 1) == rest;
    assert (stack + [frame])[..|stack|] == stack;
  }

  lemma ScanComma(frame: Frame, rest: Text, stack: seq<Frame>)
    requires |stack| + 1 <= MAX_DEPTH
    ensures Scan([COMMA] + rest, stack + [frame])
         == Scan(rest, stack + [if frame.InObject? then frame.(nextKey := true) else frame])
  {
    assert Drop([COMMA] + rest, 1) == rest;
    assert Replace(stack + [frame], frame) == stack + [frame];
    if frame.InObject? {
      assert Replace(stack + [frame], frame.(nextKey := true)) == stack + [frame.(nextKey := true)];
    }
  }

  // A number consists of these units only, and none of them is a separator.

  predicate Numeric(u: Unit) {
    48 <= u <= 57 || u == 43 || u == 45 || u == 46 || u == 69 || u == 101
  }

  predicate AllNumeric(t: Text) {
    forall i :: 0 <= i < |t| ==> Numeric(t[i])
  }

  lemma NumericJoin(a: Text, b: Text)
    requires AllNumeric(a) && AllNumeric(b)
    ensures AllNumeric(a + b)
  {
  }

  /** A mark or two followed by digits. */
  lemma NumericTail(t: Text, marks: nat)
    requires marks <= |t| && AllNumeric(t[..marks]) && Digits(t[marks..])
    ensures AllNumeric(t)
  {
    assert AllNumeric(t[marks..]);
    NumericJoin(t[..marks], t[marks..]);
    assert t[..marks] + t[marks..] == t;
  }

  lemma ExponentNumeric(exponent: Text)
    requires NumberParts([48], [], exponent)
    ensures AllNumeric(exponent)
  {
    if exponent != [] {
      NumericTail(exponent, if Digits(exponent[1..]) then 1 else 2);
    }
  }

  lemma NumberUnits(minus: bool, whole: Text, fraction: Text, exponent: Text)
    requires NumberParts(whole, fraction, exponent)
    ensures var t := NumberText(minus, whole, fraction, exponent);
            t != [] && (t[0] == 45 || 48 <= t[0] <= 57) && AllNumeric(t)
  {
    var sign: Text := if minus then [45] else [];
    assert AllNumeric(fraction) by {
      if fraction != [] {
        NumericTail(fraction, 1);
      }
    }
    assert AllNumeric(exponent) by {
      ExponentNumeric(exponent);
    }
    hide AllNumeric, Numeric;
    assert AllNumeric(sign) && AllNumeric(whole) by {
      SignAndDigits(sign, whole);
    }
    NumericJoin(sign, whole);
    NumericJoin(sign + whole, fraction);
    NumericJoin(sign + whole + fraction, exponent);
  }

  lemma SignAndDigits(sign: Text, whole: Text)
    requires (sign == [] || sign == [45]) && Digits(whole)
    ensures AllNumeric(sign) && AllNumeric(whole)
  {
  }

  lemma NumberPlain(minus: bool, whole: Text, fraction: Text, exponent: Text)
    requires NumberParts(whole, fraction, exponent)
    ensures forall i :: 0 <= i < |NumberText(minus, whole, fraction, exponent)| ==>
        Plain(NumberText(minus, whole, fraction, exponent)[i])
  {
    hide NumberText, NumberParts;
    NumberUnits(minus, whole, fraction, exponent);
  }

  /** The scan of a value, wherever it stands, raises the value's first fault
      and otherwise leaves the stack as it was. */
  lemma {:induction false} ScanDoc(d: Doc, rest: Text, stack: seq<Frame>)
    requires Grammatical(d) && AtValue(stack)
    ensures Scan(Render(d) + rest, stack) == Then(Verdict(d, |stack|), rest, stack)
    decreases d, 1
  {
    hide Scan, StringBody, NumberParts, NumberText;
    match d
    case Word(w) => ScanPlain(w, rest, stack);
    case Number(minus, whole, fraction, exponent) =>
      NumberPlain(minus, whole, fraction, exponent);
      ScanPlain(NumberText(minus, whole, fraction, exponent), rest, stack);
    case Chars(raw) => ScanString(raw, rest, stack);
    case List(items, gap) =>
      var inner, tail := stack + [InArray], [RBRACKET] + rest;
      var body := if items == [] then gap else RenderItems(items);
      Assoc4([], [LBRACKET], body, [RBRACKET]);
      Assoc4([LBRACKET], body, [RBRACKET], rest);
      ScanOpen(LBRACKET, InArray, body + tail, stack);
      ScanClose(RBRACKET, InArray, rest, stack);
      if |inner| <= MAX_DEPTH {
        if items == [] {
          ScanPlain(gap, tail, inner);
        } else {
          ScanItems(items, tail, stack);
        }
      }
    case Record(pairs, gap) =>
      var inner, tail := stack + [InObject({}, true)], [RBRACE] + rest;
      var body := if pairs == [] then gap else RenderPairs(pairs);
      Assoc4([LBRACE], body, [RBRACE], rest);
      ScanOpen(LBRACE, InObject({}, true), body + tail, stack);
      ScanClose(RBRACE, InObject({}, true), rest, stack);
      if |inner| <= MAX_DEPTH {
        if pairs == [] {
          ScanPlain(gap, tail, inner);
        } else {
          ScanPairs(pairs, {}, rest, stack);
        }
      }
  }

  lemma {:induction false} ScanPadded(p: Padded, rest: Text, stack: seq<Frame>)
    requires Blank(p.pre) && Blank(p.post) && Grammatical(p.doc) && AtValue(stack)
    ensures Scan(RenderPadded(p) + rest, stack) == Then(Verdict(p.doc, |stack|), rest, stack)
    decreases p, 2
  {
    hide Scan, Render, Grammatical;
    Assoc4(p.pre, Render(p.doc), p.post, rest);
    ScanPlain(p.pre, Render(p.doc) + (p.post + rest), stack);
    ScanDoc(p.doc, p.post + rest, stack);
    ScanPlain(p.post, rest, stack);
  }

  lemma {:induction false} ScanItems(items: seq<Padded>, rest: Text, stack: seq<Frame>)
    requires items != [] && |stack| < MAX_DEPTH
    requires forall i :: 0 <= i < |items| ==> Blank(items[i].pre) && Blank(items[i].post) && Grammatical(items[i].doc)
    ensures Scan(RenderItems(items) + rest, stack + [InArray])
         == Then(ItemsVerdict(items, |stack| + 1), rest, stack + [InArray])
    decreases items, 0
  {
    hide Scan, Grammatical, Verdict, RenderPadded;
    var inner := stack + [InArray];
    if |items| == 1 {
      ScanPadded(items[0], rest, inner);
      assert ItemsVerdict(items[1..], |stack| + 1) == None;
    } else {
      var tail := RenderItems(items[1..]) + rest;
      Assoc4(RenderPadded(items[0]), [COMMA], RenderItems(items[1..]), rest);
      ScanPadded(items[0], [COMMA] + tail, inner);
      ScanComma(InArray, tail, stack);
      ScanItems(items[1..], rest, stack);
    }
  }

  lemma PairSplit(p: Pair, rest: Text)
    ensures RenderPair(p) + rest
         == p.pre + (([QUOTE] + p.raw + [QUOTE]) + ((p.mid + [COLON]) + (RenderPadded(p.item) + rest)))
  {
    hide RenderPadded;
    var name, colon := [QUOTE] + p.raw + [QUOTE], p.mid + [COLON];
    Assoc4(p.pre, name, colon, RenderPadded(p.item));
    Assoc4(p.pre, name, colon + RenderPadded(p.item), rest);
    Assoc3(colon, RenderPadded(p.item), rest);
    Assoc3(p.pre, name, colon + RenderPadded(p.item));
  }

  /** One member: its name is looked up and recorded, then its value scanned. */
  lemma {:induction false} ScanPair(p: Pair, seen: set<Text>, rest: Text, stack: seq<Frame>)
    requires Blank(p.pre) && StringBody(p.raw) && Blank(p.mid) && |stack| < MAX_DEPTH
    requires Blank(p.item.pre) && Blank(p.item.post) && Grammatical(p.item.doc)
    ensures Scan(RenderPair(p) + rest, stack + [InObject(seen, true)])
         == if Decoded(p.raw) in seen then Some(InvalidJson)
            else Then(Verdict(p.item.doc, |stack| + 1), rest, stack + [InObject(seen + {Decoded(p.raw)}, false)])
    decreases p, 3
  {
    hide Scan, Grammatical, Verdict, RenderPadded, StringBody, Decoded;
    var before, after := stack + [InObject(seen, true)], stack + [InObject(seen + {Decoded(p.raw)}, false)];
    var value := RenderPadded(p.item) + rest;
    var named := (p.mid + [COLON]) + value;
    PairSplit(p, rest);
    ScanPlain(p.pre, ([QUOTE] + p.raw + [QUOTE]) + named, before);
    ScanString(p.raw, named, before);
    assert Replace(before, InObject(seen + {Decoded(p.raw)}, false)) == after;
    if Decoded(p.raw) !in seen {
      ScanPlain(p.mid + [COLON], value, after);
      ScanPadded(p.item, rest, after);
    }
  }

  lemma {:induction false} ScanPairs(pairs: seq<Pair>, seen: set<Text>, rest: Text, stack: seq<Frame>)
    requires pairs != [] && |stack| < MAX_DEPTH
    requires forall i :: 0 <= i < |pairs| ==>
               && Blank(pairs[i].pre) && StringBody(pairs[i].raw) && Blank(pairs[i].mid)
               && Blank(pairs[i].item.pre) && Blank(pairs[i].item.post) && Grammatical(pairs[i].item.doc)
    ensures Scan(RenderPairs(pairs) + ([RBRACE] + rest), stack + [InObject(seen, true)])
         == Then(PairsVerdict(pairs, seen, |stack| + 1), rest, stack)
    decreases pairs, 0
  {
    hide Scan, Grammatical, Verdict, RenderPair, StringBody, Decoded;
    var p, now := pairs[0], seen + {Decoded(pairs[0].raw)};
    var close := [RBRACE] + rest;
    if |pairs| == 1 {
      ScanPair(p, seen, close, stack);
      ScanClose(RBRACE, InObject(now, false), rest, stack);
      assert PairsVerdict(pairs[1..], now, |stack| + 1) == None;
    } else {
      var tail := RenderPairs(pairs[1..]) + close;
      Assoc4(RenderPair(p), [COMMA], RenderPairs(pairs[1..]), close);
      ScanPair(p, seen, [COMMA] + tail, stack);
      ScanComma(InObject(now, false), tail, stack);
      ScanPairs(pairs[1..], now, rest, stack);
    }
  }
}

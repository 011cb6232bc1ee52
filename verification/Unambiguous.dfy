/** Every text has at most one derivation, so what is decided about a
    derivation is decided about its text. */
module Unambiguous {
  import opened Texts
  import opened Json
  import opened Documents
  import opened ApiResponse

  /** The same derivation: only a gap that is not rendered may differ, and a
      number is the same by its text. */
  predicate Alike(d: Doc, e: Doc)
    decreases d, 1
  {
    match d
    case Word(w) => d == e
    case Number(minus, whole, fraction, exponent) =>
      e.Number? && NumberText(minus, whole, fraction, exponent) == NumberText(e.minus, e.whole, e.fraction, e.exponent)
    case Chars(raw) => d == e
    case List(items, gap) => e.List? && AlikeItems(items, e.items) && (items == [] ==> gap == e.gap)
    case Record(pairs, gap) => e.Record? && AlikePairs(pairs, e.pairs) && (pairs == [] ==> gap == e.gap)
  }

  predicate AlikePadded(p: Padded, q: Padded)
    decreases p, 2
  {
    p.pre == q.pre && Alike(p.doc, q.doc) && p.post == q.post
  }

  predicate AlikePair(p: Pair, q: Pair)
    decreases p, 3
  {
    p.pre == q.pre && p.raw == q.raw && p.mid == q.mid && AlikePadded(p.item, q.item)
  }

  predicate AlikeItems(a: seq<Padded>, b: seq<Padded>)
    decreases a, 0
  {
    |a| == |b| && (a != [] ==> AlikePadded(a[0], b[0]) && AlikeItems(a[1..], b[1..]))
  }

  predicate AlikePairs(a: seq<Pair>, b: seq<Pair>)
    decreases a, 0
  {
    |a| == |b| && (a != [] ==> AlikePair(a[0], b[0]) && AlikePairs(a[1..], b[1..]))
  }

  // -------------------------------------------------------- cutting a text

  predicate IsBlank(u: Unit) {
    u == 32 || u == 9 || u == LF || u == 13
  }

  /** Where a value may end: at the end of the text or before a separator. */
  predicate Closed(t: Text) {
    t == [] || t[0] == COMMA || t[0] == RBRACKET || t[0] == RBRACE
  }

  predicate Ended(t: Text) {
    Closed(t) || IsBlank(t[0])
  }

  /** How many units of a kind the text starts with. */
  function RunOf(kind: Unit -> bool, t: Text): nat {
    if t == [] || !kind(t[0]) then 0 else 1 + RunOf(kind, t[1..])
  }

  lemma {:induction false} RunLength(kind: Unit -> bool, a: Text, r: Text)
    requires (forall i :: 0 <= i < |a| ==> kind(a[i])) && (r == [] || !kind(r[0]))
    ensures RunOf(kind, a + r) == |a|
  {
    if a == [] {
      assert a + r == r;
    } else {
      assert (a + r)[1..] == a[1..] + r;
      RunLength(kind, a[1..], r);
    }
  }

  /** The longest run of a kind of unit is the only one that stops at another kind. */
  lemma RunUnique(kind: Unit -> bool, a: Text, b: Text, r: Text, s: Text)
    requires a + r == b + s
    requires (forall i :: 0 <= i < |a| ==> kind(a[i])) && (forall i :: 0 <= i < |b| ==> kind(b[i]))
    requires (r == [] || !kind(r[0])) && (s == [] || !kind(s[0]))
    ensures a == b && r == s
  {
    var t := a + r;
    RunLength(kind, a, r);
    RunLength(kind, b, s);
    assert a == t[..|a|] && b == t[..|b|] && r == t[|a|..] && s == t[|b|..];
  }

  lemma BlankUnique(a: Text, b: Text, r: Text, s: Text)
    requires Blank(a) && Blank(b) && a + r == b + s
    requires (r == [] || !IsBlank(r[0])) && (s == [] || !IsBlank(s[0]))
    ensures a == b && r == s
  {
    RunUnique(IsBlank, a, b, r, s);
  }

  lemma Behead(head: Text, r: Text, s: Text)
    requires head + r == head + s
    ensures r == s
  {
    assert r == (head + r)[|head|..] && s == (head + s)[|head|..];
  }

  /** A string ends at its first quote that is not escaped. */
  lemma StringEnds(a: Text, r: Text)
    requires StringBody(a)
    ensures Unquote((a + [QUOTE]) + r).Got? && Unquote((a + [QUOTE]) + r).rest == r
  {
    hide Unquote;
    UnquoteExtend(a + [QUOTE], r);
    assert [] + r == r;
  }

  lemma SameLength(a: Text, b: Text, r: Text, s: Text)
    requires a + r == b + s && |r| == |s|
    ensures a == b
  {
    assert a == (a + r)[..|a|] && b == (b + s)[..|b|];
  }

  lemma StringUnique(a: Text, b: Text, r: Text, s: Text)
    requires StringBody(a) && StringBody(b)
    requires ([QUOTE] + a + [QUOTE]) + r == ([QUOTE] + b + [QUOTE]) + s
    ensures a == b && r == s
  {
    hide Unquote, StringBody;
    Assoc4([QUOTE], a, [QUOTE], r);
    Assoc4([QUOTE], b, [QUOTE], s);
    Behead([QUOTE], a + ([QUOTE] + r), b + ([QUOTE] + s));
    Assoc3(a, [QUOTE], r);
    Assoc3(b, [QUOTE], s);
    StringEnds(a, r);
    StringEnds(b, s);
    SameLength(a, b, [QUOTE] + r, [QUOTE] + s);
  }

  // ------------------------------------------------------ one derivation

  /** A value is known by its first unit, which is neither blank nor a separator. */
  predicate Opens(d: Doc, u: Unit) {
    match d
    case Word(w) => w != [] && u == w[0] && (u == 110 || u == 116 || u == 102)
    case Number(_, _, _, _) => u == 45 || 48 <= u <= 57
    case Chars(_) => u == QUOTE
    case List(_, _) => u == LBRACKET
    case Record(_, _) => u == LBRACE
  }

  lemma FirstUnit(d: Doc)
    requires Grammatical(d)
    ensures Render(d) != [] && Opens(d, Render(d)[0])
    ensures !IsBlank(Render(d)[0]) && !Closed(Render(d))
  {
    if d.Number? {
      NumberUnits(d.minus, d.whole, d.fraction, d.exponent);
    } else if d.Word? {
      WordUnits();
    }
  }

  lemma WordUnits()
    ensures NULL_WORD == [110, 117, 108, 108] && TRUE_WORD == [116, 114, 117, 101]
    ensures FALSE_WORD == [102, 97, 108, 115, 101]
  {
  }

  lemma {:induction false} DocUnique(d: Doc, e: Doc, r: Text, s: Text)
    requires Grammatical(d) && Grammatical(e) && Ended(r) && Ended(s)
    requires Render(d) + r == Render(e) + s
    ensures Alike(d, e) && r == s
    decreases d, 1
  {
    hide StringBody, NumberParts, NumberText;
    FirstUnit(d);
    FirstUnit(e);
    assert (Render(d) + r)[0] == (Render(e) + s)[0];
    match d
    case Word(w) =>
      WordUnits();
      assert w == e.word;
      assert r == (w + r)[|w|..] && s == (w + s)[|w|..];
    case Number(minus, whole, fraction, exponent) =>
      NumberUnits(minus, whole, fraction, exponent);
      NumberUnits(e.minus, e.whole, e.fraction, e.exponent);
      RunUnique(Numeric, Render(d), Render(e), r, s);
    case Chars(raw) => StringUnique(raw, e.raw, r, s);
    case List(items, gap) => ListUnique(items, gap, e.items, e.gap, r, s);
    case Record(pairs, gap) => RecordUnique(pairs, gap, e.pairs, e.gap, r, s);
  }

  ghost predicate ItemsFine(items: seq<Padded>) {
    forall i :: 0 <= i < |items| ==> PaddedFine(items[i])
  }

  ghost predicate PaddedFine(p: Padded) {
    Blank(p.pre) && Grammatical(p.doc) && Blank(p.post)
  }

  ghost predicate PairFine(p: Pair) {
    Blank(p.pre) && StringBody(p.raw) && Blank(p.mid) && PaddedFine(p.item)
  }

  ghost predicate PairsFine(pairs: seq<Pair>) {
    forall i :: 0 <= i < |pairs| ==> PairFine(pairs[i])
  }

  function ListBody(items: seq<Padded>, gap: Text): Text {
    if items == [] then gap else RenderItems(items)
  }

  function RecordBody(pairs: seq<Pair>, gap: Text): Text {
    if pairs == [] then gap else RenderPairs(pairs)
  }

  /** What follows the first element. */
  function AfterItem(items: seq<Padded>, r: Text): Text {
    if |items| <= 1 then r else [COMMA] + (RenderItems(items[1..]) + r)
  }

  function AfterPair(pairs: seq<Pair>, r: Text): Text {
    if |pairs| <= 1 then r else [COMMA] + (RenderPairs(pairs[1..]) + r)
  }

  lemma ItemsSplit(items: seq<Padded>, r: Text)
    requires items != []
    ensures RenderItems(items) + r == RenderPadded(items[0]) + AfterItem(items, r)
  {
    hide RenderPadded;
    if |items| > 1 {
      Assoc4(RenderPadded(items[0]), [COMMA], RenderItems(items[1..]), r);
    }
  }

  lemma PairsSplit(pairs: seq<Pair>, r: Text)
    requires pairs != []
    ensures RenderPairs(pairs) + r == RenderPair(pairs[0]) + AfterPair(pairs, r)
  {
    hide RenderPair;
    if |pairs| > 1 {
      Assoc4(RenderPair(pairs[0]), [COMMA], RenderPairs(pairs[1..]), r);
    }
  }

  /** Past the blanks of a container without elements stands no element. */
  lemma EmptyOrNot(gap: Text, x: Text, pre: Text, y: Text)
    requires Blank(gap) && Blank(pre)
    requires x != [] && Closed(x) && y != [] && !IsBlank(y[0]) && !Closed(y)
    ensures gap + x != pre + y
  {
    if gap + x == pre + y {
      BlankUnique(gap, pre, x, y);
    }
  }

  lemma OpenPadded(p: Padded, r: Text)
    requires PaddedFine(p)
    ensures RenderPadded(p) + r == p.pre + (Render(p.doc) + (p.post + r))
    ensures var y := Render(p.doc) + (p.post + r); y != [] && !IsBlank(y[0]) && !Closed(y)
  {
    hide Render, Grammatical;
    Assoc4(p.pre, Render(p.doc), p.post, r);
    FirstUnit(p.doc);
  }

  lemma {:induction false} PaddedUnique(p: Padded, q: Padded, r: Text, s: Text)
    requires PaddedFine(p) && PaddedFine(q) && Closed(r) && Closed(s)
    requires RenderPadded(p) + r == RenderPadded(q) + s
    ensures AlikePadded(p, q) && r == s
    decreases p, 2
  {
    hide Render, Grammatical, RenderPadded, Alike;
    OpenPadded(p, r);
    OpenPadded(q, s);
    BlankUnique(p.pre, q.pre, Render(p.doc) + (p.post + r), Render(q.doc) + (q.post + s));
    DocUnique(p.doc, q.doc, p.post + r, q.post + s);
    BlankUnique(p.post, q.post, r, s);
  }

  lemma {:induction false} ItemsUnique(a: seq<Padded>, b: seq<Padded>, r: Text, s: Text)
    requires a != [] && b != [] && ItemsFine(a) && ItemsFine(b)
    requires r != [] && s != [] && r[0] == RBRACKET && s[0] == RBRACKET
    requires RenderItems(a) + r == RenderItems(b) + s
    ensures AlikeItems(a, b) && r == s
    decreases a, 0
  {
    hide RenderPadded, RenderItems, AlikePadded, PaddedFine;
    ItemsSplit(a, r);
    ItemsSplit(b, s);
    PaddedUnique(a[0], b[0], AfterItem(a, r), AfterItem(b, s));
    assert AfterItem(a, r)[0] == AfterItem(b, s)[0];
    if |a| > 1 {
      Behead([COMMA], RenderItems(a[1..]) + r, RenderItems(b[1..]) + s);
      ItemsUnique(a[1..], b[1..], r, s);
    }
  }

  lemma {:induction false} ListUnique(a: seq<Padded>, gap: Text, b: seq<Padded>, hole: Text, r: Text, s: Text)
    requires ItemsFine(a) && ItemsFine(b) && Blank(gap) && Blank(hole)
    requires [LBRACKET] + ListBody(a, gap) + [RBRACKET] + r == [LBRACKET] + ListBody(b, hole) + [RBRACKET] + s
    ensures AlikeItems(a, b) && (a == [] ==> gap == hole) && r == s
    decreases a, 1
  {
    hide RenderItems, RenderPadded, Render, Grammatical, AlikePadded;
    var x, y := [RBRACKET] + r, [RBRACKET] + s;
    Assoc4([LBRACKET], ListBody(a, gap), [RBRACKET], r);
    Assoc4([LBRACKET], ListBody(b, hole), [RBRACKET], s);
    Behead([LBRACKET], ListBody(a, gap) + x, ListBody(b, hole) + y);
    if a == [] && b == [] {
      BlankUnique(gap, hole, x, y);
    } else if a == [] {
      ItemsSplit(b, y);
      OpenPadded(b[0], AfterItem(b, y));
      EmptyOrNot(gap, x, b[0].pre, Render(b[0].doc) + (b[0].post + AfterItem(b, y)));
    } else if b == [] {
      ItemsSplit(a, x);
      OpenPadded(a[0], AfterItem(a, x));
      EmptyOrNot(hole, y, a[0].pre, Render(a[0].doc) + (a[0].post + AfterItem(a, x)));
    } else {
      ItemsUnique(a, b, x, y);
    }
    Behead([RBRACKET], r, s);
  }

  function AfterName(p: Pair, r: Text): Text {
    (p.mid + [COLON]) + (RenderPadded(p.item) + r)
  }

  lemma NameUnique(p: Pair, q: Pair, r: Text, s: Text)
    requires PairFine(p) && PairFine(q) && RenderPair(p) + r == RenderPair(q) + s
    ensures p.pre == q.pre && p.raw == q.raw && p.mid == q.mid
    ensures RenderPadded(p.item) + r == RenderPadded(q.item) + s
  {
    hide RenderPadded, StringBody, PaddedFine;
    PairSplit(p, r);
    PairSplit(q, s);
    BlankUnique(p.pre, q.pre, ([QUOTE] + p.raw + [QUOTE]) + AfterName(p, r),
                ([QUOTE] + q.raw + [QUOTE]) + AfterName(q, s));
    StringUnique(p.raw, q.raw, AfterName(p, r), AfterName(q, s));
    Assoc3(p.mid, [COLON], RenderPadded(p.item) + r);
    Assoc3(q.mid, [COLON], RenderPadded(q.item) + s);
    BlankUnique(p.mid, q.mid, [COLON] + (RenderPadded(p.item) + r), [COLON] + (RenderPadded(q.item) + s));
    Behead([COLON], RenderPadded(p.item) + r, RenderPadded(q.item) + s);
  }

  lemma {:induction false} PairsUnique(a: seq<Pair>, b: seq<Pair>, r: Text, s: Text)
    requires a != [] && b != [] && PairsFine(a) && PairsFine(b)
    requires r != [] && s != [] && r[0] == RBRACE && s[0] == RBRACE
    requires RenderPairs(a) + r == RenderPairs(b) + s
    ensures AlikePairs(a, b) && r == s
    decreases a, 0
  {
    hide RenderPair, RenderPadded, RenderPairs, AlikePadded, PaddedFine, StringBody;
    PairsSplit(a, r);
    PairsSplit(b, s);
    assert PairFine(a[0]) && PairFine(b[0]);
    NameUnique(a[0], b[0], AfterPair(a, r), AfterPair(b, s));
    PaddedUnique(a[0].item, b[0].item, AfterPair(a, r), AfterPair(b, s));
    assert AfterPair(a, r)[0] == AfterPair(b, s)[0];
    if |a| > 1 {
      Behead([COMMA], RenderPairs(a[1..]) + r, RenderPairs(b[1..]) + s);
      PairsUnique(a[1..], b[1..], r, s);
    }
  }

  lemma EmptyOrPairs(gap: Text, x: Text, pairs: seq<Pair>, y: Text)
    requires Blank(gap) && x != [] && Closed(x) && pairs != [] && PairsFine(pairs)
    ensures gap + x != RenderPairs(pairs) + y
  {
    hide RenderPairs, RenderPair, RenderPadded, StringBody, PaddedFine;
    if gap + x == RenderPairs(pairs) + y {
      PairsSplit(pairs, y);
      var p, r := pairs[0], AfterPair(pairs, y);
      assert PairFine(p);
      PairSplit(p, r);
      EmptyOrNot(gap, x, p.pre, ([QUOTE] + p.raw + [QUOTE]) + AfterName(p, r));
    }
  }

  lemma {:induction false} RecordUnique(a: seq<Pair>, gap: Text, b: seq<Pair>, hole: Text, r: Text, s: Text)
    requires PairsFine(a) && PairsFine(b) && Blank(gap) && Blank(hole)
    requires [LBRACE] + RecordBody(a, gap) + [RBRACE] + r == [LBRACE] + RecordBody(b, hole) + [RBRACE] + s
    ensures AlikePairs(a, b) && (a == [] ==> gap == hole) && r == s
    decreases a, 1
  {
    hide RenderPairs, PairFine, AlikePair;
    var x, y := [RBRACE] + r, [RBRACE] + s;
    Assoc4([LBRACE], RecordBody(a, gap), [RBRACE], r);
    Assoc4([LBRACE], RecordBody(b, hole), [RBRACE], s);
    Behead([LBRACE], RecordBody(a, gap) + x, RecordBody(b, hole) + y);
    if a == [] && b == [] {
      BlankUnique(gap, hole, x, y);
    } else if a == [] {
      EmptyOrPairs(gap, x, b, y);
    } else if b == [] {
      EmptyOrPairs(hole, y, a, x);
    } else {
      PairsUnique(a, b, x, y);
    }
    Behead([RBRACE], r, s);
  }

  // ------------------------------------------------- decided by the text

  /** What is read off a derivation is the same for any alike one. */
  lemma {:induction false} AlikeReads(d: Doc, e: Doc, finite: Text -> bool)
    requires Alike(d, e)
    ensures Nesting(d) == Nesting(e) && TreeOf(d, finite) == TreeOf(e, finite) && (NoDuplicates(d) <==> NoDuplicates(e))
    decreases d, 1
  {
    hide StringBody, Decoded, NumberText;
    match d
    case List(items, _) => AlikeItemsRead(items, e.items, finite);
    case Record(pairs, _) => AlikePairsRead(pairs, e.pairs, finite);
    case _ =>
  }

  lemma {:induction false} AlikeItemsRead(a: seq<Padded>, b: seq<Padded>, finite: Text -> bool)
    requires AlikeItems(a, b)
    ensures ItemsNesting(a) == ItemsNesting(b) && ItemTrees(a, finite) == ItemTrees(b, finite)
    ensures forall i :: 0 <= i < |a| ==> (NoDuplicates(a[i].doc) <==> NoDuplicates(b[i].doc))
    decreases a, 0
  {
    hide Nesting, TreeOf, NoDuplicates, Alike;
    if a != [] {
      AlikeReads(a[0].doc, b[0].doc, finite);
      AlikeItemsRead(a[1..], b[1..], finite);
      assert forall i :: 0 < i < |a| ==> a[i] == a[1..][i - 1] && b[i] == b[1..][i - 1];
    }
  }

  lemma {:induction false} AlikePairsRead(a: seq<Pair>, b: seq<Pair>, finite: Text -> bool)
    requires AlikePairs(a, b)
    ensures PairsNesting(a) == PairsNesting(b) && PairTrees(a, finite) == PairTrees(b, finite)
    ensures forall i :: 0 <= i < |a| ==> a[i].raw == b[i].raw
    ensures forall i :: 0 <= i < |a| ==> (NoDuplicates(a[i].item.doc) <==> NoDuplicates(b[i].item.doc))
    decreases a, 0
  {
    hide Nesting, TreeOf, NoDuplicates, Alike;
    if a != [] {
      assert AlikePair(a[0], b[0]) && AlikePadded(a[0].item, b[0].item);
      AlikeReads(a[0].item.doc, b[0].item.doc, finite);
      AlikePairsRead(a[1..], b[1..], finite);
      assert forall i :: 0 < i < |a| ==> a[i] == a[1..][i - 1] && b[i] == b[1..][i - 1];
    }
  }

  /** The grammar is unambiguous: two derivations of one text are alike, and
      have the same tree, the same nesting and the same answer about names. */
  lemma OneDerivation(p: Padded, q: Padded, json: Text, finite: Text -> bool)
    requires Derives(p, json) && Derives(q, json)
    ensures AlikePadded(p, q)
    ensures TreeOf(p.doc, finite) == TreeOf(q.doc, finite) && Nesting(p.doc) == Nesting(q.doc)
    ensures NoDuplicates(p.doc) <==> NoDuplicates(q.doc)
  {
    hide RenderPadded, Alike, TreeOf, Nesting, NoDuplicates, Grammatical;
    PaddedUnique(p, q, [], []);
    AlikeReads(p.doc, q.doc, finite);
  }

  /** What is asked of the library parser can be met on every text. */
  lemma LibraryParseTotal(json: Text, finite: Text -> bool) returns (parsed: Option<Tree>)
    ensures LibraryParse(json, parsed, finite)
  {
    hide Derives, TreeOf, NoDuplicates;
    if p :| Derives(p, json) {
      parsed := Some(TreeOf(p.doc, finite));
      forall q | Derives(q, json) ensures TreeOf(q.doc, finite) == TreeOf(p.doc, finite) {
        OneDerivation(p, q, json, finite);
      }
    } else {
      parsed := None;
    }
  }
}

/** What canonical text looks like: a compact text of the JSON grammar that
    means the value, its members in the order of their names. */
module CanonicalForm {
  import opened Texts
  import opened Json
  import opened Canonical
  import opened Documents

  /** The value a derivation stands for, member by member. */
  ghost predicate Reads(d: Doc, v: Value)
    decreases d
  {
    match d
    case Word(w) =>
      || (v == Null && w == Texts.Chars("null")) || (v == Bool(true) && w == Texts.Chars("true"))
      || (v == Bool(false) && w == Texts.Chars("false"))
    case Number(minus, whole, fraction, exponent) =>
      v.Num? && v.lexeme == NumberText(minus, whole, fraction, exponent)
    case Chars(raw) => StringBody(raw) && v == Str(Decoded(raw))
    case List(items, _) =>
      v.Arr? && |items| == |v.items| && forall i :: 0 <= i < |items| ==> Reads(items[i].doc, v.items[i])
    case Record(pairs, _) =>
      && v.Obj? && |pairs| == |v.members|
      && forall i :: 0 <= i < |pairs| ==>
           && StringBody(pairs[i].raw) && Decoded(pairs[i].raw) == v.members[i].name
           && Reads(pairs[i].item.doc, v.members[i].value)
  }

  predicate Bare(p: Padded) {
    p.pre == [] && p.post == []
  }

  /** No white space anywhere. */
  predicate Compact(d: Doc) {
    match d
    case List(items, gap) => gap == [] && forall i :: 0 <= i < |items| ==> Bare(items[i]) && Compact(items[i].doc)
    case Record(pairs, gap) =>
      && gap == []
      && forall i :: 0 <= i < |pairs| ==>
           pairs[i].pre == [] && pairs[i].mid == [] && Bare(pairs[i].item) && Compact(pairs[i].item.doc)
    case _ => true
  }

  ghost predicate GrammarNumber(l: Text) {
    exists minus, whole, fraction, exponent ::
      NumberParts(whole, fraction, exponent) && l == NumberText(minus, whole, fraction, exponent)
  }

  /** Numbers are printed in the grammar of numbers, as every finite double is. */
  ghost predicate GrammarNumbers(v: Value) {
    match v
    case Num(l) => GrammarNumber(l)
    case Arr(items) => forall i :: 0 <= i < |items| ==> GrammarNumbers(items[i])
    case Obj(members) => forall i :: 0 <= i < |members| ==> GrammarNumbers(members[i].value)
    case _ => true
  }

  ghost predicate Derivation(d: Doc, v: Value) {
    Grammatical(d) && Compact(d) && Reads(d, v) && Render(d) == Print(v)
  }

  lemma QuotedBody(s: Text)
    ensures StringBody(Escaped(s)) && Decoded(Escaped(s)) == s
  {
    UnquoteQuoted(s, []);
    assert [QUOTE] + [] == [QUOTE];
  }

  lemma WordDerives(v: Value) returns (d: Doc)
    requires v.Null? || v.Bool?
    ensures Derivation(d, v)
  {
    d := Word(Print(v));
  }

  /** What the printer writes for a value is a compact derivation of it. */
  lemma {:induction false} PrintDerives(v: Value) returns (d: Doc)
    requires GrammarNumbers(v)
    ensures Derivation(d, v)
    decreases v, 1
  {
    hide StringBody, Decoded, NumberParts, NumberText, Texts.Chars;
    match v
    case Null => d := WordDerives(v);
    case Bool(_) => d := WordDerives(v);
    case Num(l) =>
      var minus, whole, fraction, exponent :|
        NumberParts(whole, fraction, exponent) && l == NumberText(minus, whole, fraction, exponent);
      d := Number(minus, whole, fraction, exponent);
    case Str(s) =>
      QuotedBody(s);
      d := Doc.Chars(Escaped(s));
    case Arr(items) =>
      var docs := ItemsDerive(items);
      d := List(docs, []);
    case Obj(members) =>
      var pairs := MembersDerive(members);
      d := Record(pairs, []);
  }

  lemma {:induction false} ItemsDerive(items: seq<Value>) returns (docs: seq<Padded>)
    requires forall i :: 0 <= i < |items| ==> GrammarNumbers(items[i])
    ensures |docs| == |items| && RenderItems(docs) == PrintItems(items)
    ensures forall i :: 0 <= i < |items| ==> Bare(docs[i]) && Derivation(docs[i].doc, items[i])
    decreases items, 0
  {
    hide Render, Print, Grammatical, Compact, Reads;
    docs := [];
    if items != [] {
      var first := PrintDerives(items[0]);
      var more := ItemsDerive(items[1..]);
      docs := [Padded([], first, [])] + more;
      BareItem(docs[0]);
      assert docs[1..] == more;
    }
  }

  lemma BareItem(p: Padded)
    requires Bare(p)
    ensures RenderPadded(p) == Render(p.doc)
  {
  }

  lemma {:induction false} MembersDerive(members: seq<Member>) returns (pairs: seq<Pair>)
    requires forall i :: 0 <= i < |members| ==> GrammarNumbers(members[i].value)
    ensures |pairs| == |members| && RenderPairs(pairs) == PrintMembers(members)
    ensures forall i :: 0 <= i < |members| ==>
              && pairs[i].pre == [] && pairs[i].mid == [] && Bare(pairs[i].item)
              && StringBody(pairs[i].raw) && Decoded(pairs[i].raw) == members[i].name
              && Derivation(pairs[i].item.doc, members[i].value)
    decreases members, 0
  {
    hide Render, Print, Grammatical, Compact, Reads, StringBody, Decoded;
    pairs := [];
    if members != [] {
      var first := PrintDerives(members[0].value);
      var more := MembersDerive(members[1..]);
      QuotedBody(members[0].name);
      pairs := [Pair([], Escaped(members[0].name), [], Padded([], first, []))] + more;
      BareItem(pairs[0].item);
      BarePair(pairs[0], members[0]);
      assert pairs[1..] == more;
    }
  }

  lemma BarePair(p: Pair, m: Member)
    requires p.pre == [] && p.mid == [] && p.raw == Escaped(m.name) && RenderPadded(p.item) == Print(m.value)
    ensures RenderPair(p) == PrintMember(m)
  {
    hide RenderPadded, Print;
    assert [] + [COLON] == [COLON];
    assert [] + ([QUOTE] + p.raw + [QUOTE]) == Quote(m.name);
  }

  lemma {:induction false} NormalNumbers(v: Value)
    requires GrammarNumbers(v)
    ensures GrammarNumbers(Normal(v))
    decreases v
  {
    hide GrammarNumber, SortByName;
    match v
    case Arr(items) =>
      forall i | 0 <= i < |items| ensures GrammarNumbers(NormalItems(items)[i]) {
        NormalItemsAt(items, i);
        NormalNumbers(items[i]);
      }
    case Obj(members) =>
      var normal := NormalMembers(members);
      forall m | m in normal ensures GrammarNumbers(m.value) {
        var i :| 0 <= i < |normal| && normal[i] == m;
        NormalMembersAt(members, i);
        NormalNumbers(members[i].value);
      }
      forall i | 0 <= i < |SortByName(normal)| ensures GrammarNumbers(SortByName(normal)[i].value) {
        assert SortByName(normal)[i] in normal;
      }
    case _ =>
  }

  /** Canonical text is a compact text of the grammar; it stands for a value
      equal up to member order, whose members are in the order of their names. */
  lemma CanonicalTextShape(v: Value) returns (d: Doc, w: Value)
    requires WellFormed(v) && GrammarNumbers(v)
    ensures Grammatical(d) && Compact(d) && Render(d) == CanonicalText(v)
    ensures Reads(d, w) && Denote(w) == Denote(v) && WellFormed(w) && InOrder(w)
  {
    hide Grammatical, Compact, Render, Reads, Denote, InOrder, IsNormal, Normal, WellFormed, GrammarNumbers;
    w := Normal(v);
    NormalKeepsMeaning(v);
    NormalInOrder(w);
    NormalNumbers(v);
    d := PrintDerives(w);
  }
}

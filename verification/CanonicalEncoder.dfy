/** The canonical printer over object graphs, with its set of ancestors. */
module CanonicalEncoder {
  import opened Texts
  import opened Json
  import opened Canonical
  import opened Graphs

  datatype Code =
    | InvalidUnicode
    | NonFiniteNumber
    | NegativeZeroNumber
    | InvalidValue
    | Cycle
    | ArrayProperty
    | SparseArray
    | NonPlainObject
    | ObjectProperty

  datatype Outcome<+T> = Ok(value: T) | Err(code: Code)

  // ------------------------------------------------- what it computes

  function EncodePrim(p: Prim): Outcome<Text> {
    match p
    case StrP(s) => if Paired(s) then Ok(Quote(s)) else Err(InvalidUnicode)
    case NullP => Ok(NULL_WORD)
    case BoolP(b) => Ok(if b then TRUE_WORD else FALSE_WORD)
    case NumP(l, _) => Ok(l)
    case NegativeZero => Err(NegativeZeroNumber)
    case NonFinite => Err(NonFiniteNumber)
    case Other => Err(InvalidValue)
  }

  /** The elements of an array; an accessor with no functions reads as undefined. */
  function ElementsOf(slots: seq<Slot>): Outcome<seq<Val>> {
    if slots == [] then Ok([])
    else if slots[0].Hole? then Err(SparseArray)
    else if slots[0].Hidden? || slots[0].Accessor? then Err(ArrayProperty)
    else
      match ElementsOf(slots[1..])
      case Err(c) => Err(c)
      case Ok(more) => Ok([if slots[0].Data? then slots[0].v else Leaf(Other)] + more)
  }

  function EntriesOf(entries: seq<Entry<Slot>>): Outcome<seq<Entry<Val>>> {
    if entries == [] then Ok([])
    else if !entries[0].value.Data? && !entries[0].value.EmptyAccessor? then Err(ObjectProperty)
    else
      var v := if entries[0].value.Data? then entries[0].value.v else Leaf(Other);
      match EntriesOf(entries[1..])
      case Err(c) => Err(c)
      case Ok(more) => Ok([Entry(entries[0].name, v)] + more)
  }

  function Join(texts: seq<Text>): Text {
    if texts == [] then [] else if |texts| == 1 then texts[0] else texts[0] + [COMMA] + Join(texts[1..])
  }

  ghost function Encoding(h: Heap, v: Val, anc: set<nat>): Outcome<Text>
    decreases h.Keys - anc, 0
  {
    match v
    case Leaf(p) => EncodePrim(p)
    case Ref(r) =>
      if r in anc then Err(Cycle)
      else if r !in h then Err(InvalidValue)
      else
        match h[r]
        case ArrayNode(_, extras, slots) =>
          if extras > 0 then Err(ArrayProperty)
          else
            (match ElementsOf(slots)
             case Err(c) => Err(c)
             case Ok(items) =>
               match EncodingAll(h, items, anc + {r})
               case Err(c) => Err(c)
               case Ok(texts) => Ok([LBRACKET] + Join(texts) + [RBRACKET]))
        case ObjectNode(plain, symbols, entries) =>
          if !plain then Err(NonPlainObject)
          else if symbols > 0 then Err(ObjectProperty)
          else
            match EntriesOf(entries)
            case Err(c) => Err(c)
            case Ok(es) =>
              match EncodingMembers(h, SortByName(es), anc + {r})
              case Err(c) => Err(c)
              case Ok(texts) => Ok([LBRACE] + Join(texts) + [RBRACE])
  }

  ghost function EncodingAll(h: Heap, items: seq<Val>, anc: set<nat>): (r: Outcome<seq<Text>>)
    ensures r.Ok? ==> |r.value| == |items|
    decreases h.Keys - anc, |items|
  {
    if items == [] then Ok([])
    else
      match Encoding(h, items[0], anc)
      case Err(c) => Err(c)
      case Ok(text) =>
        match EncodingAll(h, items[1..], anc)
        case Err(c) => Err(c)
        case Ok(more) => Ok([text] + more)
  }

  ghost function EncodingMember(h: Heap, e: Entry<Val>, anc: set<nat>): Outcome<Text>
    decreases h.Keys - anc, 1
  {
    if !Paired(e.name) then Err(InvalidUnicode)
    else
      match Encoding(h, e.value, anc)
      case Err(c) => Err(c)
      case Ok(text) => Ok(Quote(e.name) + [COLON] + text)
  }

  ghost function EncodingMembers(h: Heap, es: seq<Entry<Val>>, anc: set<nat>): (r: Outcome<seq<Text>>)
    ensures r.Ok? ==> |r.value| == |es|
    decreases h.Keys - anc, |es| + 1
  {
    if es == [] then Ok([])
    else
      match EncodingMember(h, es[0], anc)
      case Err(c) => Err(c)
      case Ok(text) =>
        match EncodingMembers(h, es[1..], anc)
        case Err(c) => Err(c)
        case Ok(more) => Ok([text] + more)
  }

  // ------------------------------------------------------ the algorithm

  /** The one mutable set shared by all recursive calls. */
  class Ancestors {
    var members: set<nat>

    constructor ()
      ensures members == {}
    {
      members := {};
    }
  }

  method EncodeCanonical(h: Heap, v: Val, ancestors: Ancestors) returns (r: Outcome<Text>)
    modifies ancestors
    ensures ancestors.members == old(ancestors.members)
    ensures r == Encoding(h, v, old(ancestors.members))
    decreases h.Keys - ancestors.members, 0
  {
    match v
    case Leaf(p) =>
      if p.StrP? {
        var ok := AssertUnicodeScalarString(p.s);
        return if ok then Ok(Quote(p.s)) else Err(InvalidUnicode);
      }
      return EncodePrim(p);
    case Ref(id) =>
      if id in ancestors.members {
        return Err(Cycle);
      }
      if id !in h {
        return Err(InvalidValue);
      }
      ancestors.members := ancestors.members + {id};
      match h[id] {
        case ArrayNode(_, extras, slots) =>
          var elements := ElementsOf(slots);
          if extras > 0 {
            r := Err(ArrayProperty);
          } else if elements.Err? {
            r := Err(elements.code);
          } else {
            var texts := EncodeAll(h, elements.value, ancestors);
            r := if texts.Ok? then Ok([LBRACKET] + Join(texts.value) + [RBRACKET]) else Err(texts.code);
          }
        case ObjectNode(plain, symbols, entries) =>
          var es := EntriesOf(entries);
          if !plain {
            r := Err(NonPlainObject);
          } else if symbols > 0 {
            r := Err(ObjectProperty);
          } else if es.Err? {
            r := Err(es.code);
          } else {
            var texts := EncodeMembers(h, SortByName(es.value), ancestors);
            r := if texts.Ok? then Ok([LBRACE] + Join(texts.value) + [RBRACE]) else Err(texts.code);
          }
      }
      ancestors.members := ancestors.members - {id};
  }

  method EncodeAll(h: Heap, items: seq<Val>, ancestors: Ancestors) returns (r: Outcome<seq<Text>>)
    modifies ancestors
    ensures ancestors.members == old(ancestors.members)
    ensures r == EncodingAll(h, items, old(ancestors.members))
    decreases h.Keys - ancestors.members, 1
  {
    var texts: seq<Text>, i := [], 0;
    assert items[0..] == items;
    while i < |items|
      invariant i <= |items|
      invariant ancestors.members == old(ancestors.members)
      invariant EncodingAll(h, items, old(ancestors.members)) == AfterTexts(texts,
          EncodingAll(h, items[i..], old(ancestors.members)))
    {
      var one := EncodeCanonical(h, items[i], ancestors);
      assert items[i..][0] == items[i] && items[i..][1..] == items[i + 1..];
      if one.Err? {
        return Err(one.code);
      }
      AfterOneMore(texts, one.value, EncodingAll(h, items[i + 1..], old(ancestors.members)));
      texts, i := texts + [one.value], i + 1;
    }
    return Ok(texts);
  }

  method EncodeMembers(h: Heap, es: seq<Entry<Val>>, ancestors: Ancestors) returns (r: Outcome<seq<Text>>)
    modifies ancestors
    ensures ancestors.members == old(ancestors.members)
    ensures r == EncodingMembers(h, es, old(ancestors.members))
    decreases h.Keys - ancestors.members, 1
  {
    var texts: seq<Text>, i := [], 0;
    assert es[0..] == es;
    while i < |es|
      invariant i <= |es|
      invariant ancestors.members == old(ancestors.members)
      invariant EncodingMembers(h, es, old(ancestors.members)) == AfterTexts(texts,
          EncodingMembers(h, es[i..], old(ancestors.members)))
    {
      assert es[i..][0] == es[i] && es[i..][1..] == es[i + 1..];
      var ok := AssertUnicodeScalarString(es[i].name);
      if !ok {
        return Err(InvalidUnicode);
      }
      var one := EncodeCanonical(h, es[i].value, ancestors);
      if one.Err? {
        return Err(one.code);
      }
      var text := Quote(es[i].name) + [COLON] + one.value;
      AfterOneMore(texts, text, EncodingMembers(h, es[i + 1..], old(ancestors.members)));
      texts, i := texts + [text], i + 1;
    }
    return Ok(texts);
  }

  ghost function AfterTexts(texts: seq<Text>, r: Outcome<seq<Text>>): (a: Outcome<seq<Text>>)
    ensures texts == [] ==> a == r
    ensures r == Ok([]) ==> a == Ok(texts)
  {
    match r
    case Err(c) => Err(c)
    case Ok(more) =>
      assert [] + more == more && texts + [] == texts;
      Ok(texts + more)
  }

  lemma AfterOneMore(texts: seq<Text>, text: Text, r: Outcome<seq<Text>>)
    ensures AfterTexts(texts + [text], r) == AfterTexts(texts, AfterTexts([text], r))
  {
    if r.Ok? {
      assert texts + [text] + r.value == texts + ([text] + r.value);
    }
  }

  /** The text of a value whose objects list their members in the order of
      their names, and which the graph unfolds to but for that order. */
  method CanonicalJson(h: Heap, v: Val) returns (r: Outcome<Text>)
    ensures r == Encoding(h, v, {})
    ensures DistinctKeys(h) && r.Ok? ==>
              exists t, w :: Unfolds(CanonicalProfile, h, v, t) && WellFormed(t)
                             && r.value == Print(w) && InOrder(w) && Denote(w) == Denote(t)
  {
    hide InOrder, Encoding, WellFormed;
    var ancestors := new Ancestors();
    r := EncodeCanonical(h, v, ancestors);
    if r.Ok? {
      TextInOrder(h, v);
    }
  }

  lemma TextInOrder(h: Heap, v: Val)
    requires Encoding(h, v, {}).Ok?
    ensures DistinctKeys(h) ==>
              exists t, w :: Unfolds(CanonicalProfile, h, v, t) && WellFormed(t)
                             && Encoding(h, v, {}).value == Print(w) && InOrder(w) && Denote(w) == Denote(t)
  {
    hide InOrder, Encoding, WellFormed, Normal, Print, Denote, Unfolds;
    if DistinctKeys(h) {
      var t := EncodingUnfolds(h, v, {});
      UnfoldsWellFormed(CanonicalProfile, h, v, t);
      NormalKeepsMeaning(t);
      NormalInOrder(Normal(t));
    }
  }

  // ------------------------------------------- success means an unfolding

  /** What the printer accepts unfolds to a tree, and the text is that tree's canonical text. */
  lemma {:induction false} EncodingUnfolds(h: Heap, v: Val, anc: set<nat>) returns (t: Value)
    requires DistinctKeys(h) && Encoding(h, v, anc).Ok?
    ensures Unfolds(CanonicalProfile, h, v, t)
    ensures Encoding(h, v, anc).value == CanonicalText(t)
    decreases h.Keys - anc, 0
  {
    match v
    case Leaf(p) =>
      t := Admit(CanonicalProfile, p).value;
    case Ref(r) =>
      match h[r] {
        case ArrayNode(_, _, slots) =>
          var items := ElementsOf(slots).value;
          var ts := EncodingAllUnfolds(h, items, anc + {r});
          t := Arr(ts);
          ArrayUnfolds(h, r, items, ts);
        case ObjectNode(_, _, entries) =>
          var es := EntriesOf(entries).value;
          EntriesAt(entries);
          var ms := EncodingMembersUnfold(h, SortByName(es), anc + {r});
          var own, at := Unsort(es, ms);
          t := Obj(own);
          ObjectUnfolds(h, r, es, ms, own, at);
      }
  }

  lemma ArrayUnfolds(h: Heap, r: nat, items: seq<Val>, ts: seq<Value>)
    requires r in h && h[r].ArrayNode? && h[r].extras == 0 && ElementsOf(h[r].slots) == Ok(items)
    requires |ts| == |items| && forall i :: 0 <= i < |items| ==> Unfolds(CanonicalProfile, h, items[i], ts[i])
    ensures Unfolds(CanonicalProfile, h, Ref(r), Arr(ts))
  {
    var slots := h[r].slots;
    ElementsAt(slots);
    forall i | 0 <= i < |slots| ensures slots[i].Data? && Unfolds(CanonicalProfile, h, slots[i].v, ts[i]) {
      assert Unfolds(CanonicalProfile, h, items[i], ts[i]);
    }
  }

  lemma ObjectUnfolds(h: Heap, r: nat, es: seq<Entry<Val>>, ms: seq<Member>, own: seq<Member>, at: seq<nat>)
    requires r in h && h[r].ObjectNode? && h[r].plain && h[r].symbols == 0 && EntriesOf(h[r].entries) == Ok(es)
    requires Reordered(es, ms, own, at)
    requires forall i :: 0 <= i < |ms| ==>
        Paired(ms[i].name) && Unfolds(CanonicalProfile, h, SortByName(es)[i].value, ms[i].value)
    ensures Unfolds(CanonicalProfile, h, Ref(r), Obj(own))
  {
    var entries := h[r].entries;
    EntriesAt(entries);
    forall i | 0 <= i < |entries|
      ensures entries[i].value.Data? && Paired(entries[i].name)
      ensures entries[i].name == own[i].name && Unfolds(CanonicalProfile, h, entries[i].value.v, own[i].value)
    {
      assert Unfolds(CanonicalProfile, h, SortByName(es)[at[i]].value, ms[at[i]].value);
    }
  }

  lemma {:induction false} ElementsAt(slots: seq<Slot>)
    requires ElementsOf(slots).Ok?
    ensures |ElementsOf(slots).value| == |slots|
    ensures forall i :: 0 <= i < |slots| ==>
              if slots[i].Data? then ElementsOf(slots).value[i] == slots[i].v
              else slots[i].EmptyAccessor? && ElementsOf(slots).value[i] == Leaf(Other)
  {
    if slots != [] {
      ElementsAt(slots[1..]);
    }
  }

  lemma {:induction false} EntriesAt(entries: seq<Entry<Slot>>)
    requires EntriesOf(entries).Ok?
    ensures |EntriesOf(entries).value| == |entries|
    ensures forall i :: 0 <= i < |entries| ==>
              && EntriesOf(entries).value[i].name == entries[i].name
              && if entries[i].value.Data? then EntriesOf(entries).value[i].value == entries[i].value.v
                 else entries[i].value.EmptyAccessor? && EntriesOf(entries).value[i].value == Leaf(Other)
  {
    if entries != [] {
      EntriesAt(entries[1..]);
    }
  }

  lemma {:induction false} EncodingAllUnfolds(h: Heap, items: seq<Val>, anc: set<nat>) returns (ts: seq<Value>)
    requires DistinctKeys(h) && EncodingAll(h, items, anc).Ok?
    ensures |ts| == |items|
    ensures forall i :: 0 <= i < |items| ==> Unfolds(CanonicalProfile, h, items[i], ts[i])
    ensures Join(EncodingAll(h, items, anc).value) == PrintItems(NormalItems(ts))
    decreases h.Keys - anc, |items|
  {
    ts := [];
    if items != [] {
      var t := EncodingUnfolds(h, items[0], anc);
      var more := EncodingAllUnfolds(h, items[1..], anc);
      ts := [t] + more;
      assert ts[1..] == more;
    }
  }

  lemma {:induction false} EncodingMembersUnfold(h: Heap, es: seq<Entry<Val>>, anc: set<nat>) returns (ms: seq<Member>)
    requires DistinctKeys(h) && EncodingMembers(h, es, anc).Ok?
    ensures |ms| == |es|
    ensures forall i :: 0 <= i < |es| ==>
              ms[i].name == es[i].name && Paired(es[i].name) && Unfolds(CanonicalProfile, h, es[i].value, ms[i].value)
    ensures Join(EncodingMembers(h, es, anc).value) == PrintMembers(NormalMembers(ms))
    decreases h.Keys - anc, |es| + 1
  {
    ms := [];
    if es != [] {
      var t := EncodingUnfolds(h, es[0].value, anc);
      var more := EncodingMembersUnfold(h, es[1..], anc);
      ms := [Entry(es[0].name, t)] + more;
      assert ms[1..] == more;
    }
  }

  // --------------------------------------------- acyclic graphs succeed

  lemma {:induction false} EncodingSucceeds(h: Heap, path: seq<nat>, anc: set<nat>)
    requires Path(h, path) && AcyclicAdmissible(CanonicalProfile, h, Ref(path[0]))
    requires anc == set i | 0 <= i < |path| - 1 :: path[i]
    ensures Encoding(h, Ref(path[|path| - 1]), anc).Ok?
    decreases h.Keys - anc, 0
  {
    hide Paired, SortByName;
    var r := path[|path| - 1];
    assert GoodPath(CanonicalProfile, h, path);
    assert r !in anc;
    var inner := anc + {r};
    match h[r]
    case ArrayNode(_, _, slots) =>
      ElementsTotal(slots);
      ElementsAt(slots);
      var items := ElementsOf(slots).value;
      forall i | 0 <= i < |items| ensures Encoding(h, items[i], inner).Ok? {
        if items[i].Ref? {
          assert slots[i] == Data(Ref(items[i].id));
          ChildSucceeds(h, path, anc, items[i].id);
        }
      }
      AllSucceed(h, items, inner);
    case ObjectNode(_, _, entries) =>
      EntriesTotal(entries);
      EntriesAt(entries);
      var es := EntriesOf(entries).value;
      forall e | e in es ensures Paired(e.name) && Encoding(h, e.value, inner).Ok? {
        var i :| 0 <= i < |es| && es[i] == e;
        if e.value.Ref? {
          assert entries[i].value == Data(Ref(e.value.id));
          ChildSucceeds(h, path, anc, e.value.id);
        }
      }
      MembersSucceed(h, SortByName(es), inner);
  }

  lemma {:induction false} ChildSucceeds(h: Heap, path: seq<nat>, anc: set<nat>, c: nat)
    requires Path(h, path) && AcyclicAdmissible(CanonicalProfile, h, Ref(path[0]))
    requires anc == set i | 0 <= i < |path| - 1 :: path[i]
    requires Edge(h, path[|path| - 1], c) && path[|path| - 1] !in anc && path[|path| - 1] in h
    ensures Encoding(h, Ref(c), anc + {path[|path| - 1]}).Ok?
    decreases h.Keys - anc - {path[|path| - 1]}, 1
  {
    var longer := path + [c];
    forall i | 0 < i < |longer| ensures Edge(h, longer[i - 1], longer[i]) {
      if i < |path| {
        assert Edge(h, path[i - 1], path[i]);
      }
    }
    var inner := anc + {path[|path| - 1]};
    var visited := set i | 0 <= i < |longer| - 1 :: longer[i];
    forall x ensures x in inner <==> x in visited {
      if x in anc {
        var i :| 0 <= i < |path| - 1 && path[i] == x;
        assert longer[i] == x;
      } else if x == path[|path| - 1] {
        assert longer[|path| - 1] == x;
      }
    }
    assert inner == visited;
    assert h.Keys - inner == h.Keys - anc - {path[|path| - 1]};
    EncodingSucceeds(h, longer, inner);
  }

  lemma {:induction false} ElementsTotal(slots: seq<Slot>)
    requires forall i :: 0 <= i < |slots| ==> slots[i].Data?
    ensures ElementsOf(slots).Ok?
  {
    if slots != [] {
      ElementsTotal(slots[1..]);
    }
  }

  lemma {:induction false} EntriesTotal(entries: seq<Entry<Slot>>)
    requires forall i :: 0 <= i < |entries| ==> entries[i].value.Data?
    ensures EntriesOf(entries).Ok?
  {
    if entries != [] {
      EntriesTotal(entries[1..]);
    }
  }

  lemma {:induction false} AllSucceed(h: Heap, items: seq<Val>, anc: set<nat>)
    requires forall i :: 0 <= i < |items| ==> Encoding(h, items[i], anc).Ok?
    ensures EncodingAll(h, items, anc).Ok?
  {
    if items != [] {
      AllSucceed(h, items[1..], anc);
    }
  }

  lemma {:induction false} MembersSucceed(h: Heap, es: seq<Entry<Val>>, anc: set<nat>)
    requires forall e :: e in es ==> Paired(e.name) && Encoding(h, e.value, anc).Ok?
    ensures EncodingMembers(h, es, anc).Ok?
  {
    if es != [] {
      assert es[0] in es;
      MembersSucceed(h, es[1..], anc);
    }
  }

  // -------------------------------------------------------- main result

  /** On every finite graph, shared or cyclic, the printer succeeds exactly when
      the reachable part is acyclic and admissible, which is exactly when the
      graph unfolds to a tree, and then it prints the canonical text of that tree. */
  lemma CanonicalJsonExact(h: Heap, v: Val)
    requires DistinctKeys(h)
    ensures Encoding(h, v, {}).Ok? <==> AcyclicAdmissible(CanonicalProfile, h, v)
    ensures Encoding(h, v, {}).Ok? <==> exists t :: Unfolds(CanonicalProfile, h, v, t)
    ensures forall t :: Unfolds(CanonicalProfile, h, v, t) ==> Encoding(h, v, {}) == Ok(CanonicalText(t))
  {
    if t :| Unfolds(CanonicalProfile, h, v, t) {
      UnfoldsAcyclic(CanonicalProfile, h, v, t);
    }
    if AcyclicAdmissible(CanonicalProfile, h, v) && v.Ref? {
      EncodingSucceeds(h, [v.id], {});
    }
    if Encoding(h, v, {}).Ok? {
      var u := EncodingUnfolds(h, v, {});
      assert Unfolds(CanonicalProfile, h, v, u);
      forall t | Unfolds(CanonicalProfile, h, v, t) ensures t == u {
        UnfoldsUnique(CanonicalProfile, CanonicalProfile, h, v, t, u);
      }
    }
  }

  /** Comparing the texts of two accepted graphs decides whether they unfold
      to values equal up to member order. */
  lemma CanonicalJsonDecidesEquality(h: Heap, v: Val, w: Val, t: Value, u: Value)
    requires DistinctKeys(h) && Unfolds(CanonicalProfile, h, v, t) && Unfolds(CanonicalProfile, h, w, u)
    ensures Encoding(h, v, {}).Ok? && Encoding(h, w, {}).Ok?
    ensures Encoding(h, v, {}) == Encoding(h, w, {}) <==> Denote(t) == Denote(u)
  {
    CanonicalJsonExact(h, v);
    CanonicalJsonExact(h, w);
    UnfoldsWellFormed(CanonicalProfile, h, v, t);
    UnfoldsWellFormed(CanonicalProfile, h, w, u);
    CanonicalTextDecidesEquality(t, u);
  }
}

/** Why the canonical printer refuses a graph: each error code names a defect
    that can be reached from the value. */
module EncoderFaults {
  import opened Texts
  import opened Json
  import opened Graphs
  import opened Canonical
  import opened CanonicalEncoder

  /** `b` is held directly by `a`. */
  ghost predicate Child(h: Heap, a: Val, b: Val) {
    && a.Ref? && a.id in h
    && match h[a.id]
       case ArrayNode(_, _, slots) => exists i :: 0 <= i < |slots| && slots[i] == Data(b)
       case ObjectNode(_, _, entries) => exists i :: 0 <= i < |entries| && entries[i].value == Data(b)
  }

  ghost predicate Trail(h: Heap, trail: seq<Val>) {
    trail != [] && forall i :: 0 < i < |trail| ==> Child(h, trail[i - 1], trail[i])
  }

  predicate LeafDefect(p: Prim, c: Code) {
    match c
    case InvalidUnicode => p.StrP? && !Paired(p.s)
    case NonFiniteNumber => p.NonFinite?
    case NegativeZeroNumber => p.NegativeZero?
    case InvalidValue => p.Other?
    case _ => false
  }

  predicate ArrayDefect(extras: nat, slots: seq<Slot>, c: Code) {
    match c
    case ArrayProperty => extras > 0 || exists i :: 0 <= i < |slots| && (slots[i].Hidden? || slots[i].Accessor?)
    case SparseArray => exists i :: 0 <= i < |slots| && slots[i].Hole?
    case InvalidValue => exists i :: 0 <= i < |slots| && slots[i].EmptyAccessor?
    case _ => false
  }

  predicate ObjectDefect(plain: bool, symbols: nat, entries: seq<Entry<Slot>>, c: Code) {
    match c
    case NonPlainObject => !plain
    case ObjectProperty =>
      || symbols > 0
      || exists i :: 0 <= i < |entries| && !entries[i].value.Data? && !entries[i].value.EmptyAccessor?
    case InvalidUnicode => exists i :: 0 <= i < |entries| && !Paired(entries[i].name)
    case InvalidValue => exists i :: 0 <= i < |entries| && entries[i].value.EmptyAccessor?
    case _ => false
  }

  /** What is wrong with the value itself, not with what it holds. */
  predicate Defect(h: Heap, v: Val, c: Code) {
    match v
    case Leaf(p) => LeafDefect(p, c)
    case Ref(r) =>
      if r !in h then c == InvalidValue
      else
        match h[r]
        case ArrayNode(_, extras, slots) => ArrayDefect(extras, slots, c)
        case ObjectNode(plain, symbols, entries) => ObjectDefect(plain, symbols, entries, c)
  }

  /** The end of the trail has the defect, or closes a cycle. */
  ghost predicate Guilty(h: Heap, trail: seq<Val>, anc: set<nat>, c: Code)
    requires trail != []
  {
    var last := trail[|trail| - 1];
    if c == Cycle then last.Ref? && (last.id in anc || last in trail[..|trail| - 1]) else Defect(h, last, c)
  }

  lemma {:induction false} ElementsBlame(slots: seq<Slot>)
    requires ElementsOf(slots).Err?
    ensures ArrayDefect(0, slots, ElementsOf(slots).code)
  {
    if !slots[0].Hole? && !slots[0].Hidden? && !slots[0].Accessor? {
      ElementsBlame(slots[1..]);
      var i :| 0 <= i < |slots[1..]| && slots[1..][i] == slots[i + 1] && !slots[1..][i].Data?
               && (if ElementsOf(slots).code == SparseArray then slots[1..][i].Hole?
                   else slots[1..][i].Hidden? || slots[1..][i].Accessor? || slots[1..][i].EmptyAccessor?)
               && (ElementsOf(slots).code == ArrayProperty ==> slots[1..][i].Hidden? || slots[1..][i].Accessor?);
      assert slots[i + 1] == slots[1..][i];
    }
  }

  lemma {:induction false} EntriesBlame(entries: seq<Entry<Slot>>)
    requires EntriesOf(entries).Err?
    ensures EntriesOf(entries).code == ObjectProperty && ObjectDefect(true, 0, entries, ObjectProperty)
  {
    if entries[0].value.Data? || entries[0].value.EmptyAccessor? {
      EntriesBlame(entries[1..]);
      var rest := entries[1..];
      var i :| 0 <= i < |rest| && !rest[i].value.Data? && !rest[i].value.EmptyAccessor?;
      assert entries[i + 1] == rest[i];
    }
  }

  lemma {:induction false} ItemBlame(h: Heap, items: seq<Val>, anc: set<nat>) returns (k: nat)
    requires EncodingAll(h, items, anc).Err?
    ensures k < |items| && Encoding(h, items[k], anc) == Err(EncodingAll(h, items, anc).code)
    decreases |items|
  {
    k := 0;
    if Encoding(h, items[0], anc).Ok? {
      var i := ItemBlame(h, items[1..], anc);
      k := i + 1;
    }
  }

  lemma {:induction false} MemberBlame(h: Heap, es: seq<Entry<Val>>, anc: set<nat>) returns (k: nat)
    requires EncodingMembers(h, es, anc).Err?
    ensures k < |es|
    ensures var c := EncodingMembers(h, es, anc).code;
            (!Paired(es[k].name) && c == InvalidUnicode) || Encoding(h, es[k].value, anc) == Err(c)
    decreases |es|
  {
    k := 0;
    if EncodingMember(h, es[0], anc).Ok? {
      var i := MemberBlame(h, es[1..], anc);
      k := i + 1;
    }
  }

  /** A refusal comes with a trail from the value to what it names. */
  lemma {:induction false} Blame(h: Heap, v: Val, anc: set<nat>) returns (trail: seq<Val>)
    requires Encoding(h, v, anc).Err?
    ensures Trail(h, trail) && trail[0] == v && Guilty(h, trail, anc, Encoding(h, v, anc).code)
    decreases h.Keys - anc, 0
  {
    hide Paired, SortByName, Join;
    trail := [v];
    if v.Ref? && v.id !in anc && v.id in h {
      match h[v.id] {
        case ArrayNode(_, extras, slots) =>
          if extras == 0 {
            trail := ArrayBlame(h, v.id, anc);
          }
        case ObjectNode(plain, symbols, entries) =>
          if plain && symbols == 0 {
            trail := ObjectBlame(h, v.id, anc);
          }
      }
    }
  }

  lemma {:induction false} ArrayBlame(h: Heap, r: nat, anc: set<nat>) returns (trail: seq<Val>)
    requires r in h && r !in anc && h[r].ArrayNode? && h[r].extras == 0 && Encoding(h, Ref(r), anc).Err?
    ensures Trail(h, trail) && trail[0] == Ref(r) && Guilty(h, trail, anc, Encoding(h, Ref(r), anc).code)
    decreases h.Keys - anc - {r}, 1
  {
    var slots := h[r].slots;
    trail := [Ref(r)];
    if ElementsOf(slots).Err? {
      ElementsBlame(slots);
    } else {
      ElementsAt(slots);
      var items := ElementsOf(slots).value;
      var k := ItemBlame(h, items, anc + {r});
      if slots[k].Data? {
        assert h.Keys - (anc + {r}) == h.Keys - anc - {r};
        var rest := Blame(h, items[k], anc + {r});
        trail := Onward(h, Ref(r), rest, anc, Encoding(h, Ref(r), anc).code);
      }
    }
  }

  lemma {:induction false} ObjectBlame(h: Heap, r: nat, anc: set<nat>) returns (trail: seq<Val>)
    requires r in h && r !in anc && h[r].ObjectNode? && h[r].plain && h[r].symbols == 0
    requires Encoding(h, Ref(r), anc).Err?
    ensures Trail(h, trail) && trail[0] == Ref(r) && Guilty(h, trail, anc, Encoding(h, Ref(r), anc).code)
    decreases h.Keys - anc - {r}, 1
  {
    hide Paired;
    var entries := h[r].entries;
    trail := [Ref(r)];
    if EntriesOf(entries).Err? {
      EntriesBlame(entries);
    } else {
      EntriesAt(entries);
      var es := EntriesOf(entries).value;
      var sorted := SortByName(es);
      var k := MemberBlame(h, sorted, anc + {r});
      assert sorted[k] in es;
      var i :| 0 <= i < |es| && es[i] == sorted[k];
      var c := Encoding(h, Ref(r), anc).code;
      if Encoding(h, sorted[k].value, anc + {r}) == Err(c) {
        if entries[i].value.Data? {
          assert h.Keys - (anc + {r}) == h.Keys - anc - {r};
          var rest := Blame(h, sorted[k].value, anc + {r});
          trail := Onward(h, Ref(r), rest, anc, c);
        }
      } else {
        assert !Paired(entries[i].name);
      }
    }
  }

  lemma Onward(h: Heap, v: Val, rest: seq<Val>, anc: set<nat>, c: Code) returns (trail: seq<Val>)
    requires v.Ref? && Trail(h, rest) && Child(h, v, rest[0]) && Guilty(h, rest, anc + {v.id}, c)
    ensures Trail(h, trail) && trail[0] == v && Guilty(h, trail, anc, c)
  {
    hide Child, Defect;
    trail := [v] + rest;
    var n := |rest|;
    assert trail[n] == rest[n - 1] && trail[..n] == [v] + rest[..n - 1];
    forall i | 0 < i < |trail| ensures Child(h, trail[i - 1], trail[i]) {
      if i > 1 {
        assert Child(h, rest[i - 2], rest[i - 1]);
      }
    }
    if c == Cycle && rest[n - 1].id == v.id {
      assert rest[n - 1] == v == trail[0];
    }
  }

  /** Whatever graph the printer refuses, its error code names a defect that
      a chain of array elements and object members leads to from the value,
      and the code for a cycle comes with a chain that returns to a value on it. */
  lemma RefusalNamesDefect(h: Heap, v: Val) returns (trail: seq<Val>)
    requires Encoding(h, v, {}).Err?
    ensures Trail(h, trail) && trail[0] == v
    ensures var last, c := trail[|trail| - 1], Encoding(h, v, {}).code;
            if c == Cycle then last in trail[..|trail| - 1] else Defect(h, last, c)
  {
    hide Encoding, Defect;
    trail := Blame(h, v, {});
  }

  /** The text of a value that is not an object, and the values that have none. */
  lemma PrimitiveTexts(h: Heap, p: Prim)
    ensures Encoding(h, Leaf(NullP), {}) == Ok(Texts.Chars("null"))
    ensures p.BoolP? ==> Encoding(h, Leaf(p), {}) == Ok(Texts.Chars(if p.b then "true" else "false"))
    ensures p.NumP? ==> Encoding(h, Leaf(p), {}) == Ok(p.lexeme)
    ensures p.StrP? && Paired(p.s) ==>
              && Encoding(h, Leaf(p), {}).Ok? && Encoding(h, Leaf(p), {}).value[..1] == Texts.Chars("\"")
              && Unquote(Encoding(h, Leaf(p), {}).value[1..]) == Got(p.s, [])
    ensures Encoding(h, Leaf(p), {}).Err? <==>
              p.NegativeZero? || p.NonFinite? || p.Other? || (p.StrP? && !Paired(p.s))
  {
    hide Paired;
    Words();
    if p.StrP? {
      UnquoteQuoted(p.s, []);
      assert Quote(p.s)[1..] == Escaped(p.s) + ([QUOTE] + []);
    }
  }

  /** Which primitives each serializer takes, and the text of what it takes. */
  lemma AdmittedTexts(q: Profile, p: Prim)
    ensures Admit(q, p).None? <==>
              || p.NonFinite? || p.Other? || (q == CatalogProfile && p.NumP? && !p.safe)
              || (q == CanonicalProfile && (p.NegativeZero? || (p.StrP? && !Paired(p.s))))
    ensures Admit(q, p).Some? ==>
              Print(Admit(q, p).value) ==
              match p
              case NullP => Texts.Chars("null")
              case BoolP(b) => if b then Texts.Chars("true") else Texts.Chars("false")
              case NumP(l, _) => l
              case StrP(s) => Quote(s)
              case _ => Texts.Chars("0")
  {
    hide Paired, Quote;
    Words();
  }

  lemma Words()
    ensures NULL_WORD == Texts.Chars("null") && TRUE_WORD == Texts.Chars("true") && FALSE_WORD == Texts.Chars("false")
    ensures ZERO == Texts.Chars("0")
  {
  }
}

/** The bounded serializers: one pass that copies, prints and counts. */
module Snapshots {
  import opened Texts
  import opened Json
  import opened Canonical
  import opened Graphs

  datatype Limits = Limits(profile: Profile, depth: nat, nodes: nat, objectKeys: nat, arrayItems: nat, bytes: nat)

  function CapabilityLimits(maximum: nat): Limits {
    Limits(CapabilityProfile, 16, 8192, 256, 4096, maximum)
  }

  const CATALOG_LIMITS := Limits(CatalogProfile, 32, 65536, 256, 4096, 4 * 1024 * 1024)

  const MAX_NAME_BYTES := 1024

  datatype Tally = Tally(nodes: nat, bytes: nat)

  datatype Snap<+T> = Rejected | Taken(copy: T, text: Text, tally: Tally)

  // ------------------------------------------------- what it computes

  function Charge(l: Limits, tally: Tally, text: Text): Option<Tally> {
    var bytes := tally.bytes + Utf8Len(text);
    if bytes > l.bytes then None else Some(tally.(bytes := bytes))
  }

  function Separator(first: bool): Text {
    if first then [] else [COMMA]
  }

  /** What precedes a member's value: a comma unless first, the quoted name, a colon. */
  function Lead(first: bool, name: Text): Text {
    Separator(first) + Quote(name) + [COLON]
  }

  function Present(slots: seq<Slot>): nat {
    if slots == [] then 0 else (if slots[0].Hole? then 0 else 1) + Present(slots[1..])
  }

  function Room(l: Limits, depth: nat): nat {
    if depth > l.depth then 0 else l.depth - depth + 1
  }

  function Visiting(l: Limits, h: Heap, v: Val, depth: nat, tally: Tally): Snap<Value>
    decreases Room(l, depth), 0
  {
    var counted := tally.(nodes := tally.nodes + 1);
    if counted.nodes > l.nodes || depth > l.depth then Rejected
    else
      match v
      case Leaf(p) =>
        if p.StrP? && Utf8Len(p.s) > l.bytes then Rejected
        else
          (match Admit(l.profile, p)
           case None => Rejected
           case Some(c) => Close(l, c, [], Print(c), counted))
      case Ref(r) =>
        if r !in h then Rejected
        else
          match h[r]
          case ArrayNode(native, extras, slots) =>
            if !native || |slots| > l.arrayItems || Present(slots) + extras != |slots| then Rejected
            else
              (match Charge(l, counted, [LBRACKET])
               case None => Rejected
               case Some(began) =>
                 match VisitingItems(l, h, slots, true, depth + 1, began)
                 case Rejected => Rejected
                 case Taken(items, text, t) => Close(l, Arr(items), [LBRACKET] + text, [RBRACKET], t))
          case ObjectNode(plain, symbols, entries) =>
            if !plain || symbols > 0 || |entries| > l.objectKeys then Rejected
            else
              match Charge(l, counted, [LBRACE])
              case None => Rejected
              case Some(began) =>
                match VisitingMembers(l, h, SortByName(entries), true, depth + 1, began)
                case Rejected => Rejected
                case Taken(members, text, t) => Close(l, Obj(members), [LBRACE] + text, [RBRACE], t)
  }

  function Close(l: Limits, copy: Value, text: Text, last: Text, tally: Tally): Snap<Value> {
    match Charge(l, tally, last)
    case None => Rejected
    case Some(t) => Taken(copy, text + last, t)
  }

  function VisitingItems(l: Limits, h: Heap, slots: seq<Slot>, first: bool, depth: nat, tally: Tally): Snap<seq<Value>>
    decreases Room(l, depth), |slots| + 1
  {
    if slots == [] then Taken([], [], tally)
    else if !slots[0].Data? then Rejected
    else
      match Charge(l, tally, Separator(first))
      case None => Rejected
      case Some(t) =>
        match Visiting(l, h, slots[0].v, depth, t)
        case Rejected => Rejected
        case Taken(c, text, t') =>
          After([c], Separator(first) + text, VisitingItems(l, h, slots[1..], false, depth, t'))
  }

  function VisitingMembers(l: Limits, h: Heap, es: seq<Entry<Slot>>, first: bool, depth: nat,
      tally: Tally): Snap<seq<Member>>
    decreases Room(l, depth), |es| + 1
  {
    if es == [] then Taken([], [], tally)
    else if !es[0].value.Data? || Utf8Len(es[0].name) > MAX_NAME_BYTES then Rejected
    else
      match Charge(l, tally, Lead(first, es[0].name))
      case None => Rejected
      case Some(t) =>
        match Visiting(l, h, es[0].value.v, depth, t)
        case Rejected => Rejected
        case Taken(c, text, t') =>
          After([Entry(es[0].name, c)], Lead(first, es[0].name) + text,
                VisitingMembers(l, h, es[1..], false, depth, t'))
  }

  function After<T>(copies: seq<T>, text: Text, r: Snap<seq<T>>): Snap<seq<T>> {
    match r
    case Rejected => Rejected
    case Taken(more, rest, t) => Taken(copies + more, text + rest, t)
  }

  // ------------------------------------------------------ the algorithm

  class Counters {
    var nodes: nat
    var bytes: nat

    function Count(): Tally
      reads this
    {
      Tally(nodes, bytes)
    }

    constructor ()
      ensures Count() == Tally(0, 0)
    {
      nodes, bytes := 0, 0;
    }

    method Add(l: Limits, text: Text) returns (ok: bool)
      modifies this
      ensures nodes == old(nodes)
      ensures ok <==> Charge(l, old(Count()), text).Some?
      ensures ok ==> Some(Count()) == Charge(l, old(Count()), text)
    {
      bytes := bytes + Utf8Len(text);
      ok := bytes <= l.bytes;
    }
  }

  method Visit(l: Limits, h: Heap, v: Val, depth: nat, c: Counters) returns (r: Snap<Value>)
    modifies c
    ensures r == Visiting(l, h, v, depth, old(c.Count()))
    ensures r.Taken? ==> c.Count() == r.tally
    decreases Room(l, depth), 0
  {
    hide Utf8Len, SortByName, Present, Print;
    c.nodes := c.nodes + 1;
    if c.nodes > l.nodes || depth > l.depth {
      return Rejected;
    }
    match v
    case Leaf(p) =>
      if p.StrP? && Utf8Len(p.s) > l.bytes {
        return Rejected;
      }
      var copy := Admit(l.profile, p);
      if copy.None? {
        return Rejected;
      }
      var ok := c.Add(l, Print(copy.value));
      return if ok then Taken(copy.value, [] + Print(copy.value), c.Count()) else Rejected;
    case Ref(id) =>
      if id !in h {
        return Rejected;
      }
      match h[id]
      case ArrayNode(native, extras, slots) =>
        if !native || |slots| > l.arrayItems || Present(slots) + extras != |slots| {
          return Rejected;
        }
        var ok := c.Add(l, [LBRACKET]);
        if !ok {
          return Rejected;
        }
        var inner := VisitItems(l, h, slots, depth + 1, c);
        if inner.Rejected? {
          return Rejected;
        }
        ok := c.Add(l, [RBRACKET]);
        return if ok then Taken(Arr(inner.copy), [LBRACKET] + inner.text + [RBRACKET], c.Count()) else Rejected;
      case ObjectNode(plain, symbols, entries) =>
        if !plain || symbols > 0 || |entries| > l.objectKeys {
          return Rejected;
        }
        var ok := c.Add(l, [LBRACE]);
        if !ok {
          return Rejected;
        }
        var inner := VisitMembers(l, h, SortByName(entries), depth + 1, c);
        if inner.Rejected? {
          return Rejected;
        }
        ok := c.Add(l, [RBRACE]);
        return if ok then Taken(Obj(inner.copy), [LBRACE] + inner.text + [RBRACE], c.Count()) else Rejected;
  }

  method VisitItems(l: Limits, h: Heap, slots: seq<Slot>, depth: nat, c: Counters) returns (r: Snap<seq<Value>>)
    modifies c
    ensures r == VisitingItems(l, h, slots, true, depth, old(c.Count()))
    ensures r.Taken? ==> c.Count() == r.tally
    decreases Room(l, depth), 1
  {
    hide Utf8Len, Separator;
    var values: seq<Value>, text: Text, i := [], [], 0;
    ghost var start := c.Count();
    assert slots[0..] == slots;
    AfterNothing(VisitingItems(l, h, slots, true, depth, start));
    while i < |slots|
      invariant i <= |slots|
      invariant VisitingItems(l, h, slots, true, depth, start)
             == After(values, text, VisitingItems(l, h, slots[i..], i == 0, depth, c.Count()))
    {
      assert slots[i..][0] == slots[i] && slots[i..][1..] == slots[i + 1..];
      if !slots[i].Data? {
        return Rejected;
      }
      var ok := c.Add(l, Separator(i == 0));
      if !ok {
        return Rejected;
      }
      var next := Visit(l, h, slots[i].v, depth, c);
      if next.Rejected? {
        return Rejected;
      }
      AfterMore(values, text, [next.copy], Separator(i == 0) + next.text,
          VisitingItems(l, h, slots[i + 1..], false, depth, c.Count()));
      values, text, i := values + [next.copy], text + (Separator(i == 0) + next.text), i + 1;
    }
    r := Taken(values, text, c.Count());
    assert values + [] == values && text + [] == text;
  }

  method VisitMembers(l: Limits, h: Heap, es: seq<Entry<Slot>>, depth: nat, c: Counters) returns (r: Snap<seq<Member>>)
    modifies c
    ensures r == VisitingMembers(l, h, es, true, depth, old(c.Count()))
    ensures r.Taken? ==> c.Count() == r.tally
    decreases Room(l, depth), 1
  {
    hide Utf8Len, Escaped, Separator;
    var members: seq<Member>, text: Text, i := [], [], 0;
    ghost var start := c.Count();
    assert es[0..] == es;
    AfterNothing(VisitingMembers(l, h, es, true, depth, start));
    while i < |es|
      invariant i <= |es|
      invariant VisitingMembers(l, h, es, true, depth, start)
             == After(members, text, VisitingMembers(l, h, es[i..], i == 0, depth, c.Count()))
    {
      assert es[i..][0] == es[i] && es[i..][1..] == es[i + 1..];
      if !es[i].value.Data? || Utf8Len(es[i].name) > MAX_NAME_BYTES {
        return Rejected;
      }
      var encoded := Lead(i == 0, es[i].name);
      var ok := c.Add(l, encoded);
      if !ok {
        return Rejected;
      }
      var next := Visit(l, h, es[i].value.v, depth, c);
      if next.Rejected? {
        return Rejected;
      }
      var m := Entry(es[i].name, next.copy);
      AfterMore(members, text, [m], encoded + next.text, VisitingMembers(l, h, es[i + 1..], false, depth, c.Count()));
      members, text, i := members + [m], text + (encoded + next.text), i + 1;
    }
    r := Taken(members, text, c.Count());
    assert members + [] == members && text + [] == text;
  }

  lemma AfterNothing<T>(r: Snap<seq<T>>)
    ensures After([], [], r) == r
  {
    if r.Taken? {
      assert [] + r.copy == r.copy && [] + r.text == r.text;
    }
  }

  lemma AfterMore<T>(a: seq<T>, x: Text, b: seq<T>, y: Text, r: Snap<seq<T>>)
    ensures After(a + b, x + y, r) == After(a, x, After(b, y, r))
  {
    if r.Taken? {
      assert a + b + r.copy == a + (b + r.copy);
      Assoc3(x, y, r.text);
    }
  }

  method Snapshot(l: Limits, h: Heap, input: Val) returns (r: Snap<Value>)
    ensures r == Visiting(l, h, input, 0, Tally(0, 0))
  {
    var c := new Counters();
    r := Visit(l, h, input, 0, c);
  }

  // ---------------------------------------------------- measures of a copy

  function Nodes(v: Value): nat
    decreases v, 1
  {
    match v
    case Arr(items) => 1 + ItemsNodes(items)
    case Obj(members) => 1 + MembersNodes(members)
    case _ => 1
  }

  function ItemsNodes(items: seq<Value>): nat
    decreases items, 0
  {
    if items == [] then 0 else Nodes(items[0]) + ItemsNodes(items[1..])
  }

  function MembersNodes(members: seq<Member>): nat
    decreases members, 0
  {
    if members == [] then 0 else Nodes(members[0].value) + MembersNodes(members[1..])
  }

  /** The width limits hold everywhere in the copy. */
  predicate Fits(l: Limits, v: Value) {
    match v
    case Arr(items) => |items| <= l.arrayItems && forall i :: 0 <= i < |items| ==> Fits(l, items[i])
    case Obj(members) =>
      |members| <= l.objectKeys
      && forall i :: 0 <= i < |members| ==> Utf8Len(members[i].name) <= MAX_NAME_BYTES && Fits(l, members[i].value)
    case _ => true
  }

  predicate Within(l: Limits, v: Value) {
    Fits(l, v) && Depth(v) <= l.depth && Nodes(v) <= l.nodes && Utf8Len(Print(v)) <= l.bytes
  }

  function TailItems(first: bool, items: seq<Value>): Text {
    if items == [] then [] else Separator(first) + PrintItems(items)
  }

  function TailMembers(first: bool, members: seq<Member>): Text {
    if members == [] then [] else Separator(first) + PrintMembers(members)
  }

  lemma TailItemsStep(first: bool, items: seq<Value>)
    requires items != []
    ensures TailItems(first, items) == Separator(first) + Print(items[0]) + TailItems(false, items[1..])
    ensures Utf8Len(TailItems(first, items))
         == Utf8Len(Separator(first)) + Utf8Len(Print(items[0])) + Utf8Len(TailItems(false, items[1..]))
  {
    var sep, head, tail := Separator(first), Print(items[0]), TailItems(false, items[1..]);
    if |items| == 1 {
      assert sep + head + [] == sep + head;
    } else {
      assert PrintItems(items) == head + [COMMA] + PrintItems(items[1..]);
      assert tail == [COMMA] + PrintItems(items[1..]);
      Assoc4(sep, head, [COMMA], PrintItems(items[1..]));
      Assoc3(sep, head, tail);
      Assoc3(head, [COMMA], PrintItems(items[1..]));
    }
    PrintEnds(items[0]);
    Utf8LenAppend(sep, head);
    Utf8LenAppend(sep + head, tail);
  }

  lemma TailMembersStep(first: bool, members: seq<Member>)
    requires members != []
    ensures TailMembers(first, members)
         == Separator(first) + Quote(members[0].name) + [COLON] + Print(members[0].value) + TailMembers(false,
             members[1..])
    ensures Utf8Len(TailMembers(first, members))
         == Utf8Len(Separator(first) + Quote(members[0].name) + [COLON]) + Utf8Len(Print(members[0].value))
            + Utf8Len(TailMembers(false, members[1..]))
  {
    var sep, head, tail := Separator(first), PrintMember(members[0]), TailMembers(false, members[1..]);
    var lead, body := Separator(first) + Quote(members[0].name) + [COLON], Print(members[0].value);
    Assoc4(sep, Quote(members[0].name), [COLON], body);
    Assoc3(Quote(members[0].name), [COLON], body);
    assert sep + head == lead + body;
    if |members| == 1 {
      assert sep + head + [] == sep + head;
    } else {
      Assoc3(sep, head, tail);
      Assoc3(head, [COMMA], PrintMembers(members[1..]));
    }
    PrintEnds(members[0].value);
    Utf8LenAppend(lead, body);
    Utf8LenAppend(lead + body, tail);
  }

  lemma BracketBytes(open: Unit, inner: Text, close: Unit)
    requires open < 0x80 && close < 0x80
    ensures Utf8Len([open] + inner + [close]) == 2 + Utf8Len(inner)
    ensures Utf8Len([open]) == 1 && Utf8Len([close]) == 1
  {
    Utf8LenAppend([open], inner);
    Utf8LenAppend([open] + inner, [close]);
    Ascii([open]);
    Ascii([close]);
  }

  // --------------------------------------------- room for what is left

  ghost predicate Room1(l: Limits, n: Value, depth: nat, tally: Tally) {
    && Fits(l, n) && depth + Depth(n) <= l.depth
    && tally.nodes + Nodes(n) <= l.nodes && tally.bytes + Utf8Len(Print(n)) <= l.bytes
  }

  ghost function Spent(tally: Tally, n: Value): Tally {
    Tally(tally.nodes + Nodes(n), tally.bytes + Utf8Len(Print(n)))
  }

  ghost predicate RoomItems(l: Limits, ns: seq<Value>, first: bool, depth: nat, tally: Tally) {
    && (forall i :: 0 <= i < |ns| ==> Fits(l, ns[i])) && depth + ItemsDepth(ns) <= l.depth + 1
    && tally.nodes + ItemsNodes(ns) <= l.nodes && tally.bytes + Utf8Len(TailItems(first, ns)) <= l.bytes
  }

  ghost function SpentItems(tally: Tally, first: bool, ns: seq<Value>): Tally {
    Tally(tally.nodes + ItemsNodes(ns), tally.bytes + Utf8Len(TailItems(first, ns)))
  }

  ghost predicate RoomMembers(l: Limits, ns: seq<Member>, first: bool, depth: nat, tally: Tally) {
    && (forall i :: 0 <= i < |ns| ==> Utf8Len(ns[i].name) <= MAX_NAME_BYTES && Fits(l, ns[i].value))
    && depth + MembersDepth(ns) <= l.depth + 1
    && tally.nodes + MembersNodes(ns) <= l.nodes && tally.bytes + Utf8Len(TailMembers(first, ns)) <= l.bytes
  }

  ghost function SpentMembers(tally: Tally, first: bool, ns: seq<Member>): Tally {
    Tally(tally.nodes + MembersNodes(ns), tally.bytes + Utf8Len(TailMembers(first, ns)))
  }

  ghost function Charged(tally: Tally, text: Text): Tally {
    tally.(bytes := tally.bytes + Utf8Len(text))
  }

  lemma RoomItemsStep(l: Limits, ns: seq<Value>, first: bool, depth: nat, tally: Tally)
    requires ns != []
    ensures var t1 := Charged(tally, Separator(first));
            && SpentItems(tally, first, ns) == SpentItems(Spent(t1, ns[0]), false, ns[1..])
            && (RoomItems(l, ns, first, depth, tally) ==>
                  Room1(l, ns[0], depth, t1) && RoomItems(l, ns[1..], false, depth, Spent(t1, ns[0])))
            && (Room1(l, ns[0], depth, t1) && RoomItems(l, ns[1..], false, depth, Spent(t1, ns[0])) ==>
                  RoomItems(l, ns, first, depth, tally))
  {
    TailItemsStep(first, ns);
    assert ns == [ns[0]] + ns[1..];
  }

  lemma RoomMembersStep(l: Limits, ns: seq<Member>, first: bool, depth: nat, tally: Tally)
    requires ns != []
    ensures var t1 := Charged(tally, Lead(first, ns[0].name));
            && SpentMembers(tally, first, ns) == SpentMembers(Spent(t1, ns[0].value), false, ns[1..])
            && (RoomMembers(l, ns, first, depth, tally) ==>
                  Utf8Len(ns[0].name) <= MAX_NAME_BYTES && Room1(l, ns[0].value, depth, t1)
                  && RoomMembers(l, ns[1..], false, depth, Spent(t1, ns[0].value)))
            && (Utf8Len(ns[0].name) <= MAX_NAME_BYTES && Room1(l, ns[0].value, depth, t1)
                && RoomMembers(l, ns[1..], false, depth, Spent(t1, ns[0].value)) ==>
                  RoomMembers(l, ns, first, depth, tally))
  {
    TailMembersStep(first, ns);
    assert ns == [ns[0]] + ns[1..];
  }

  lemma TailsWhole(items: seq<Value>, members: seq<Member>)
    ensures TailItems(true, items) == PrintItems(items) && TailMembers(true, members) == PrintMembers(members)
  {
  }

  lemma RoomArray(l: Limits, items: seq<Value>, depth: nat, tally: Tally)
    ensures var t1 := Charged(tally.(nodes := tally.nodes + 1), [LBRACKET]);
            && Spent(tally, Arr(items)) == Charged(SpentItems(t1, true, items), [RBRACKET])
            && (Room1(l, Arr(items), depth, tally) <==>
                  && |items| <= l.arrayItems && depth <= l.depth && RoomItems(l, items, true, depth + 1, t1)
                  && tally.nodes + 1 <= l.nodes && SpentItems(t1, true, items).bytes + 1 <= l.bytes)
    ensures TailItems(true, items) == PrintItems(items) && Utf8Len([RBRACKET]) == 1
  {
    hide Utf8Len, PrintItems, ItemsNodes, ItemsDepth, TailItems;
    BracketBytes(LBRACKET, PrintItems(items), RBRACKET);
    TailsWhole(items, []);
  }

  lemma RoomObject(l: Limits, members: seq<Member>, depth: nat, tally: Tally)
    ensures var t1 := Charged(tally.(nodes := tally.nodes + 1), [LBRACE]);
            && Spent(tally, Obj(members)) == Charged(SpentMembers(t1, true, members), [RBRACE])
            && (Room1(l, Obj(members), depth, tally) <==>
                  && |members| <= l.objectKeys && depth <= l.depth && RoomMembers(l, members, true, depth + 1, t1)
                  && tally.nodes + 1 <= l.nodes && SpentMembers(t1, true, members).bytes + 1 <= l.bytes)
    ensures TailMembers(true, members) == PrintMembers(members) && Utf8Len([RBRACE]) == 1
  {
    hide Utf8Len, PrintMembers, MembersNodes, MembersDepth, TailMembers;
    BracketBytes(LBRACE, PrintMembers(members), RBRACE);
    TailsWhole([], members);
  }
}

/** Exactly which graphs the bounded serializers accept, and what they return. */
module SnapshotExact {
  import opened Texts
  import opened Json
  import opened Canonical
  import opened Graphs
  import opened Snapshots
  import Encoder = CanonicalEncoder

  ghost function Expected(l: Limits, n: Value, depth: nat, tally: Tally): Snap<Value> {
    if Room1(l, n, depth, tally) then Taken(n, Print(n), Spent(tally, n)) else Rejected
  }

  ghost function ExpectedItems(l: Limits, ns: seq<Value>, first: bool, depth: nat, tally: Tally): Snap<seq<Value>> {
    if RoomItems(l, ns, first, depth, tally) then Taken(ns, TailItems(first, ns), SpentItems(tally, first, ns))
        else Rejected
  }

  ghost function ExpectedMembers(l: Limits, ns: seq<Member>, first: bool, depth: nat, tally: Tally): Snap<seq<Member>> {
    if RoomMembers(l, ns, first, depth, tally) then Taken(ns, TailMembers(first, ns), SpentMembers(tally, first, ns))
        else Rejected
  }

  ghost predicate Started(l: Limits, tally: Tally) {
    tally.nodes <= l.nodes && tally.bytes <= l.bytes
  }

  // ------------------------------------ accepted exactly within the limits

  /** On a graph that unfolds, the running checks reject exactly when the
      finished copy is beyond a limit; otherwise copy, text and counters are exact. */
  lemma {:induction false} VisitingExact(l: Limits, h: Heap, v: Val, t: Value, depth: nat, tally: Tally)
    requires l.profile != CanonicalProfile && DistinctKeys(h) && Unfolds(l.profile, h, v, t) && Started(l, tally)
    ensures Visiting(l, h, v, depth, tally) == Expected(l, Normal(t), depth, tally)
    decreases t, 1
  {
    match v
    case Leaf(p) =>
      LeafExact(l, h, p, t, depth, tally);
    case Ref(r) =>
      if tally.nodes + 1 > l.nodes || depth > l.depth {
        TooMuch(l, h, v, t, depth, tally);
      } else if h[r].ArrayNode? {
        VisitingArrayExact(l, h, r, t, depth, tally);
      } else {
        VisitingObjectExact(l, h, r, t, depth, tally);
      }
  }

  lemma {:induction false} VisitingArrayExact(l: Limits, h: Heap, r: nat, t: Value, depth: nat, tally: Tally)
    requires l.profile != CanonicalProfile && DistinctKeys(h) && Unfolds(l.profile, h, Ref(r), t) && Started(l, tally)
    requires h[r].ArrayNode? && tally.nodes + 1 <= l.nodes && depth <= l.depth
    ensures Visiting(l, h, Ref(r), depth, tally) == Expected(l, Normal(t), depth, tally)
    decreases t, 0
  {
    hide Utf8Len, Print, Fits, Nodes, Depth, Visiting, VisitingItems, NormalItems, Room1, RoomItems;
    var t1 := Charged(tally.(nodes := tally.nodes + 1), [LBRACKET]);
    if Started(l, t1) {
      VisitingItemsExact(l, h, h[r].slots, t.items, true, depth + 1, t1);
    }
    ArrayExact(l, h, r, NormalItems(t.items), depth, tally);
  }

  lemma {:induction false} VisitingObjectExact(l: Limits, h: Heap, r: nat, t: Value, depth: nat, tally: Tally)
    requires l.profile != CanonicalProfile && DistinctKeys(h) && Unfolds(l.profile, h, Ref(r), t) && Started(l, tally)
    requires h[r].ObjectNode? && tally.nodes + 1 <= l.nodes && depth <= l.depth
    ensures Visiting(l, h, Ref(r), depth, tally) == Expected(l, Normal(t), depth, tally)
    decreases t, 0
  {
    hide Utf8Len, Print, Fits, Nodes, Depth, Visiting, VisitingMembers, SortByName, NormalMembers, Room1, RoomMembers;
    var entries := h[r].entries;
    var ms, at := Resort(entries, t.members);
    ResortedUnfold(l.profile, h, entries, t.members, ms, at);
    var t1 := Charged(tally.(nodes := tally.nodes + 1), [LBRACE]);
    if Started(l, t1) {
      VisitingMembersExact(l, h, SortByName(entries), ms, t, true, depth + 1, t1);
    }
    ObjectExact(l, h, r, SortByName(entries), NormalMembers(ms), depth, tally);
  }

  lemma LeafExact(l: Limits, h: Heap, p: Prim, t: Value, depth: nat, tally: Tally)
    requires Admit(l.profile, p) == Some(t) && Started(l, tally)
    ensures Visiting(l, h, Leaf(p), depth, tally) == Expected(l, Normal(t), depth, tally)
  {
    hide Utf8Len, Escaped, Quote, SortByName, NormalMembers, NormalItems, Hex4;
    if p.StrP? {
      QuoteBytes(p.s);
    }
    assert [] + Print(t) == Print(t);
  }

  lemma TooMuch(l: Limits, h: Heap, v: Val, t: Value, depth: nat, tally: Tally)
    requires tally.nodes + 1 > l.nodes || depth > l.depth
    ensures Visiting(l, h, v, depth, tally) == Expected(l, Normal(t), depth, tally)
  {
  }

  lemma ArrayExact(l: Limits, h: Heap, r: nat, ns: seq<Value>, depth: nat, tally: Tally)
    requires r in h && h[r].ArrayNode? && AdmitNode(l.profile, h[r]) && l.profile != CanonicalProfile
    requires |ns| == |h[r].slots| && tally.nodes + 1 <= l.nodes && depth <= l.depth
    requires var t1 := Charged(tally.(nodes := tally.nodes + 1), [LBRACKET]);
             Started(l, t1) ==>
               VisitingItems(l, h, h[r].slots, true, depth + 1, t1) == ExpectedItems(l, ns, true, depth + 1, t1)
    ensures Visiting(l, h, Ref(r), depth, tally) == Expected(l, Arr(ns), depth, tally)
  {
    hide Utf8Len, PrintItems, PrintMembers, Fits, Nodes, Depth, Unfolds, VisitingItems, TailItems;
    AllPresent(h[r].slots);
    RoomArray(l, ns, depth, tally);
  }

  lemma ObjectExact(l: Limits, h: Heap, r: nat, es: seq<Entry<Slot>>, ns: seq<Member>, depth: nat, tally: Tally)
    requires r in h && h[r].ObjectNode? && AdmitNode(l.profile, h[r]) && l.profile != CanonicalProfile
    requires es == SortByName(h[r].entries) && |ns| == |es| && tally.nodes + 1 <= l.nodes && depth <= l.depth
    requires var t1 := Charged(tally.(nodes := tally.nodes + 1), [LBRACE]);
             Started(l, t1) ==> VisitingMembers(l, h, es, true, depth + 1, t1) == ExpectedMembers(l, ns, true,
                 depth + 1, t1)
    ensures Visiting(l, h, Ref(r), depth, tally) == Expected(l, Obj(ns), depth, tally)
  {
    hide Utf8Len, PrintItems, PrintMembers, Fits, Nodes, Depth, Unfolds, SortByName, VisitingMembers, TailMembers;
    RoomObject(l, ns, depth, tally);
  }

  lemma {:induction false} AllPresent(slots: seq<Slot>)
    requires forall i :: 0 <= i < |slots| ==> slots[i].Data?
    ensures Present(slots) == |slots|
  {
    if slots != [] {
      AllPresent(slots[1..]);
    }
  }

  lemma ResortedUnfold(p: Profile, h: Heap, es: seq<Entry<Slot>>, own: seq<Member>, ms: seq<Member>, at: seq<nat>)
    requires Distinct(es) && Reordered(es, ms, own, at)
    requires forall i :: 0 <= i < |es| ==> es[i].value.Data? && Unfolds(p, h, es[i].value.v, own[i].value)
    ensures forall j :: 0 <= j < |es| ==>
              && SortByName(es)[j].value.Data? && ms[j].name == SortByName(es)[j].name && ms[j] in own
              && Unfolds(p, h, SortByName(es)[j].value.v, ms[j].value)
  {
    hide Unfolds, SortByName;
    var sorted := SortByName(es);
    SortSorts(es);
    SortedDistinct(sorted);
    var back := Positions(sorted, es);
    forall j | 0 <= j < |es|
      ensures sorted[j].value.Data? && ms[j] in own && Unfolds(p, h, sorted[j].value.v, ms[j].value)
    {
      assert sorted[at[back[j]]].name == sorted[j].name;
      assert own[back[j]] == ms[j];
    }
  }

  lemma {:induction false} VisitingItemsExact(l: Limits, h: Heap, slots: seq<Slot>, ts: seq<Value>, first: bool,
      depth: nat, tally: Tally)
    requires l.profile != CanonicalProfile && DistinctKeys(h) && |slots| == |ts| && Started(l, tally) &&
        depth <= l.depth + 1
    requires forall i :: 0 <= i < |slots| ==> slots[i].Data? && Unfolds(l.profile, h, slots[i].v, ts[i])
    ensures VisitingItems(l, h, slots, first, depth, tally) == ExpectedItems(l, NormalItems(ts), first, depth, tally)
    decreases ts, 0
  {
    if ts != [] {
      var ns := NormalItems(ts);
      assert ns == [Normal(ts[0])] + NormalItems(ts[1..]);
      var t1 := Charged(tally, Separator(first));
      if Started(l, t1) {
        VisitingExact(l, h, slots[0].v, ts[0], depth, t1);
        if Room1(l, ns[0], depth, t1) {
          VisitingItemsExact(l, h, slots[1..], ts[1..], false, depth, Spent(t1, ns[0]));
        }
      }
      ItemsStep(l, h, slots, ns, first, depth, tally);
    }
  }

  lemma ItemsStep(l: Limits, h: Heap, slots: seq<Slot>, ns: seq<Value>, first: bool, depth: nat, tally: Tally)
    requires slots != [] && |ns| == |slots| && slots[0].Data?
    requires var t1 := Charged(tally, Separator(first));
             Started(l, t1) ==>
               && Visiting(l, h, slots[0].v, depth, t1) == Expected(l, ns[0], depth, t1)
               && (Room1(l, ns[0], depth, t1) ==>
                     VisitingItems(l, h, slots[1..], false, depth, Spent(t1, ns[0])) == ExpectedItems(l, ns[1..], false,
                         depth, Spent(t1, ns[0])))
    requires Started(l, tally)
    ensures VisitingItems(l, h, slots, first, depth, tally) == ExpectedItems(l, ns, first, depth, tally)
  {
    hide Utf8Len, Print, PrintItems, Fits, Nodes, Depth, TailItems, ItemsNodes, ItemsDepth, RoomItems, SpentItems;
    RoomItemsStep(l, ns, first, depth, tally);
    TailItemsStep(first, ns);
    Assoc3(Separator(first), Print(ns[0]), TailItems(false, ns[1..]));
    assert ns == [ns[0]] + ns[1..];
  }

  lemma {:induction false} VisitingMembersExact(l: Limits, h: Heap, es: seq<Entry<Slot>>, ms: seq<Member>, whole: Value,
                                                first: bool, depth: nat, tally: Tally)
    requires l.profile != CanonicalProfile && DistinctKeys(h) && |es| == |ms| && Started(l, tally) &&
        depth <= l.depth + 1
    requires whole.Obj? && forall j :: 0 <= j < |ms| ==> ms[j] in whole.members
    requires forall i :: 0 <= i < |es| ==>
               es[i].value.Data? && ms[i].name == es[i].name && Unfolds(l.profile, h, es[i].value.v, ms[i].value)
    ensures VisitingMembers(l, h, es, first, depth, tally) == ExpectedMembers(l, NormalMembers(ms), first, depth, tally)
    decreases whole, 0, |ms|
  {
    if ms != [] {
      var ns := NormalMembers(ms);
      assert ns == [Entry(ms[0].name, Normal(ms[0].value))] + NormalMembers(ms[1..]);
      var t1 := Charged(tally, Lead(first, ns[0].name));
      assert ms[0] in whole.members;
      if Started(l, t1) {
        VisitingExact(l, h, es[0].value.v, ms[0].value, depth, t1);
        if Room1(l, ns[0].value, depth, t1) {
          VisitingMembersExact(l, h, es[1..], ms[1..], whole, false, depth, Spent(t1, ns[0].value));
        }
      }
      MembersStep(l, h, es, ns, first, depth, tally);
    }
  }

  lemma MembersStep(l: Limits, h: Heap, es: seq<Entry<Slot>>, ns: seq<Member>, first: bool, depth: nat, tally: Tally)
    requires es != [] && |ns| == |es| && es[0].value.Data? && es[0].name == ns[0].name
    requires var t1 := Charged(tally, Lead(first, ns[0].name));
             Started(l, t1) ==>
               && Visiting(l, h, es[0].value.v, depth, t1) == Expected(l, ns[0].value, depth, t1)
               && (Room1(l, ns[0].value, depth, t1) ==>
                     VisitingMembers(l, h, es[1..], false, depth, Spent(t1, ns[0].value))
                     == ExpectedMembers(l, ns[1..], false, depth, Spent(t1, ns[0].value)))
    requires Started(l, tally)
    ensures VisitingMembers(l, h, es, first, depth, tally) == ExpectedMembers(l, ns, first, depth, tally)
  {
    hide Utf8Len, Print, PrintMembers, Fits, Nodes, Depth, TailMembers, MembersNodes, MembersDepth, SpentMembers,
        RoomMembers, Quote;
    RoomMembersStep(l, ns, first, depth, tally);
    TailMembersStep(first, ns);
    Assoc3(Lead(first, ns[0].name), Print(ns[0].value), TailMembers(false, ns[1..]));
    assert ns == [ns[0]] + ns[1..];
  }

  // ------------------------------------------------- accepted means unfolding

  /** Whatever is accepted unfolds to a finite tree, so no cycle is ever accepted. */
  lemma {:induction false} VisitingUnfolds(l: Limits, h: Heap, v: Val, depth: nat, tally: Tally) returns (t: Value)
    requires l.profile != CanonicalProfile && DistinctKeys(h) && Visiting(l, h, v, depth, tally).Taken?
    ensures Unfolds(l.profile, h, v, t)
    decreases Room(l, depth), 0
  {
    hide Utf8Len, Print, SortByName;
    match v
    case Leaf(p) =>
      t := Admit(l.profile, p).value;
    case Ref(r) =>
      var counted := tally.(nodes := tally.nodes + 1);
      match h[r] {
        case ArrayNode(_, extras, slots) =>
          var ts := VisitingItemsUnfold(l, h, slots, true, depth + 1, Charge(l, counted, [LBRACKET]).value);
          AllPresent(slots);
          t := Arr(ts);
        case ObjectNode(_, _, entries) =>
          var sorted := SortByName(entries);
          var ms := VisitingMembersUnfold(l, h, sorted, true, depth + 1, Charge(l, counted, [LBRACE]).value);
          var own, at := Unsort(entries, ms);
          forall i | 0 <= i < |entries|
            ensures entries[i].value.Data? && entries[i].name == own[i].name
            ensures Unfolds(l.profile, h, entries[i].value.v, own[i].value)
          {
            assert sorted[at[i]] == entries[i];
          }
          t := Obj(own);
      }
  }

  lemma {:induction false} VisitingItemsUnfold(l: Limits, h: Heap, slots: seq<Slot>, first: bool, depth: nat,
      tally: Tally) returns (ts: seq<Value>)
    requires l.profile != CanonicalProfile && DistinctKeys(h) && VisitingItems(l, h, slots, first, depth, tally).Taken?
    ensures |ts| == |slots|
    ensures forall i :: 0 <= i < |slots| ==> slots[i].Data? && Unfolds(l.profile, h, slots[i].v, ts[i])
    decreases Room(l, depth), |slots| + 1
  {
    hide Utf8Len, Charge, Visiting, Unfolds;
    ts := [];
    if slots != [] {
      var t1 := Charge(l, tally, Separator(first)).value;
      var t := VisitingUnfolds(l, h, slots[0].v, depth, t1);
      var more := VisitingItemsUnfold(l, h, slots[1..], false, depth, Visiting(l, h, slots[0].v, depth, t1).tally);
      ts := [t] + more;
    }
  }

  lemma {:induction false} VisitingMembersUnfold(l: Limits, h: Heap, es: seq<Entry<Slot>>, first: bool, depth: nat,
      tally: Tally) returns (ms: seq<Member>)
    requires l.profile != CanonicalProfile && DistinctKeys(h) && VisitingMembers(l, h, es, first, depth, tally).Taken?
    ensures |ms| == |es|
    ensures forall i :: 0 <= i < |es| ==>
              es[i].value.Data? && ms[i].name == es[i].name && Unfolds(l.profile, h, es[i].value.v, ms[i].value)
    decreases Room(l, depth), |es| + 1
  {
    hide Utf8Len, Lead, Charge, Visiting, Unfolds;
    ms := [];
    if es != [] {
      var t1 := Charge(l, tally, Lead(first, es[0].name)).value;
      var t := VisitingUnfolds(l, h, es[0].value.v, depth, t1);
      var more := VisitingMembersUnfold(l, h, es[1..], false, depth, Visiting(l, h, es[0].value.v, depth, t1).tally);
      ms := [Entry(es[0].name, t)] + more;
    }
  }

  // -------------------------------------------------------- main results

  /** On every heap, cyclic ones included, a bounded serializer accepts exactly
      the graphs that unfold to a tree within its limits. It returns that tree
      with sorted members and its canonical text, the byte counter is the UTF-8
      length of the text and the node counter the number of values. */
  lemma SnapshotAccepts(l: Limits, h: Heap, v: Val)
    requires l.profile != CanonicalProfile && DistinctKeys(h)
    ensures var r := Visiting(l, h, v, 0, Tally(0, 0));
            && (r.Taken? <==> exists t :: Unfolds(l.profile, h, v, t) && Within(l, Normal(t)))
            && (r.Taken? ==> AcyclicAdmissible(l.profile, h, v))
            && (r.Taken? ==> r.tally == Tally(Nodes(r.copy), Utf8Len(r.text)))
            && forall t :: Unfolds(l.profile, h, v, t) && r.Taken? ==> r.copy == Normal(t) && r.text == CanonicalText(t)
  {
    hide Utf8Len, Print, Normal, Visiting, Nodes, Depth, Fits;
    var r := Visiting(l, h, v, 0, Tally(0, 0));
    forall t | Unfolds(l.profile, h, v, t)
      ensures r == Expected(l, Normal(t), 0, Tally(0, 0))
    {
      VisitingExact(l, h, v, t, 0, Tally(0, 0));
    }
    if r.Taken? {
      var u := VisitingUnfolds(l, h, v, 0, Tally(0, 0));
      UnfoldsAcyclic(l.profile, h, v, u);
      assert Unfolds(l.profile, h, v, u) && Within(l, Normal(u));
    }
  }

  /** Serializing the copy again, laid out on any heap, gives the same result. */
  lemma SnapshotOfCopy(l: Limits, h: Heap, v: Val, again: Heap, w: Val)
    requires l.profile != CanonicalProfile && DistinctKeys(h) && DistinctKeys(again)
    requires Visiting(l, h, v, 0, Tally(0, 0)).Taken?
    requires Unfolds(l.profile, again, w, Visiting(l, h, v, 0, Tally(0, 0)).copy)
    ensures Visiting(l, again, w, 0, Tally(0, 0)) == Visiting(l, h, v, 0, Tally(0, 0))
  {
    hide Utf8Len, Print, Normal, Visiting, Nodes, Depth, Fits;
    var t := VisitingUnfolds(l, h, v, 0, Tally(0, 0));
    VisitingExact(l, h, v, t, 0, Tally(0, 0));
    UnfoldsWellFormed(l.profile, h, v, t);
    NormalIdempotent(t);
    VisitingExact(l, again, w, Normal(t), 0, Tally(0, 0));
  }

  lemma NormalIdempotent(t: Value)
    requires WellFormed(t)
    ensures Normal(Normal(t)) == Normal(t)
  {
    NormalKeepsMeaning(t);
    NormalKeepsMeaning(Normal(t));
    NormalUnique(Normal(Normal(t)), Normal(t));
  }

  /** The broker's serializer, the catalog's and the canonical printer agree on
      every graph they accept: any two that accept give the same text. */
  lemma SerializersAgree(h: Heap, v: Val, maximum: nat)
    requires DistinctKeys(h)
    ensures var capability := Visiting(CapabilityLimits(maximum), h, v, 0, Tally(0, 0));
            var catalog := Visiting(CATALOG_LIMITS, h, v, 0, Tally(0, 0));
            var canonical := Encoder.Encoding(h, v, {});
            && (capability.Taken? && canonical.Ok? ==> capability.text == canonical.value)
            && (catalog.Taken? && canonical.Ok? ==> catalog.text == canonical.value)
            && (capability.Taken? && catalog.Taken? ==> capability.text == catalog.text)
  {
    hide Utf8Len, Print, Normal, Visiting, Nodes, Depth, Fits, Within;
    var cap := CapabilityLimits(maximum);
    SnapshotAccepts(cap, h, v);
    SnapshotAccepts(CATALOG_LIMITS, h, v);
    Encoder.CanonicalJsonExact(h, v);
    forall t, u | Unfolds(CapabilityProfile, h, v, t) && Unfolds(CatalogProfile, h, v, u) ensures t == u {
      UnfoldsUnique(CapabilityProfile, CatalogProfile, h, v, t, u);
    }
    forall t, u | Unfolds(CapabilityProfile, h, v, t) && Unfolds(CanonicalProfile, h, v, u) ensures t == u {
      UnfoldsUnique(CapabilityProfile, CanonicalProfile, h, v, t, u);
    }
    forall t, u | Unfolds(CatalogProfile, h, v, t) && Unfolds(CanonicalProfile, h, v, u) ensures t == u {
      UnfoldsUnique(CatalogProfile, CanonicalProfile, h, v, t, u);
    }
  }

  /** No array, object or name in the value is larger than the sizes given. */
  predicate Modest(v: Value, keys: nat, items: nat) {
    match v
    case Arr(elements) =>
      |elements| <= items && forall i :: 0 <= i < |elements| ==> Modest(elements[i], keys, items)
    case Obj(members) =>
      && |members| <= keys
      && forall i :: 0 <= i < |members| ==> Utf8Len(members[i].name) <= 1024 && Modest(members[i].value, keys, items)
    case _ => true
  }

  lemma {:induction false} FitsModest(l: Limits, v: Value)
    ensures Fits(l, v) <==> Modest(v, l.objectKeys, l.arrayItems)
  {
    hide Utf8Len;
    match v
    case Arr(elements) =>
      forall i | 0 <= i < |elements| ensures Fits(l, elements[i]) <==> Modest(elements[i], l.objectKeys, l.arrayItems) {
        FitsModest(l, elements[i]);
      }
    case Obj(members) =>
      forall i | 0 <= i < |members|
        ensures Fits(l, members[i].value) <==> Modest(members[i].value, l.objectKeys, l.arrayItems)
      {
        FitsModest(l, members[i].value);
      }
    case _ =>
  }

  /** The broker's serializer by its numbers: depth 16, 8192 values, objects of
      256 members, arrays of 4096 elements, names of 1024 bytes. */
  lemma CapabilityAccepts(h: Heap, v: Val, maximum: nat)
    requires DistinctKeys(h)
    ensures Visiting(CapabilityLimits(maximum), h, v, 0, Tally(0, 0)).Taken? <==>
              exists t :: && Unfolds(CapabilityProfile, h, v, t) && Modest(Normal(t), 256, 4096)
                          && Depth(Normal(t)) <= 16 && Nodes(Normal(t)) <= 8192 && Utf8Len(Print(Normal(t))) <= maximum
  {
    hide Utf8Len, Print, Normal, Visiting, Nodes, Depth, Fits, Modest, Unfolds;
    SnapshotAccepts(CapabilityLimits(maximum), h, v);
    forall t ensures Fits(CapabilityLimits(maximum), Normal(t)) <==> Modest(Normal(t), 256, 4096) {
      FitsModest(CapabilityLimits(maximum), Normal(t));
    }
  }

  /** The catalog's: depth 32, 65536 values, 4 MiB. */
  lemma CatalogAccepts(h: Heap, v: Val)
    requires DistinctKeys(h)
    ensures Visiting(CATALOG_LIMITS, h, v, 0, Tally(0, 0)).Taken? <==>
              exists t :: && Unfolds(CatalogProfile, h, v, t) && Modest(Normal(t), 256, 4096)
                          && Depth(Normal(t)) <= 32 && Nodes(Normal(t)) <= 65_536
                          && Utf8Len(Print(Normal(t))) <= 4_194_304
  {
    hide Utf8Len, Print, Normal, Visiting, Nodes, Depth, Fits, Modest, Unfolds;
    SnapshotAccepts(CATALOG_LIMITS, h, v);
    forall t ensures Fits(CATALOG_LIMITS, Normal(t)) <==> Modest(Normal(t), 256, 4096) {
      FitsModest(CATALOG_LIMITS, Normal(t));
    }
  }
}

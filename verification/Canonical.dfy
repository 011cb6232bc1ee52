/** The canonical text of a value: members sorted by name, compact. */
module Canonical {
  import opened Texts
  import opened Json

  // --------------------------------------------------- meaning of a value

  /** What a value means when the order of members does not: objects are maps. */
  datatype Meaning =
    | MNull
    | MBool(b: bool)
    | MNum(lexeme: Numeral)
    | MStr(s: Text)
    | MArr(items: seq<Meaning>)
    | MObj(members: map<Text, Meaning>)

  function Denote(v: Value): Meaning
    decreases v, 1
  {
    match v
    case Null => MNull
    case Bool(b) => MBool(b)
    case Num(l) => MNum(l)
    case Str(s) => MStr(s)
    case Arr(items) => MArr(DenoteItems(items))
    case Obj(members) => MObj(DenoteMembers(members))
  }

  function DenoteItems(items: seq<Value>): (r: seq<Meaning>)
    ensures |r| == |items|
    decreases items, 0
  {
    if items == [] then [] else [Denote(items[0])] + DenoteItems(items[1..])
  }

  /** Later members of one name replace earlier ones, as when JSON.parse builds an object. */
  function DenoteMembers(members: seq<Member>): map<Text, Meaning>
    decreases members, 0
  {
    if members == [] then map[]
    else
      var last := members[|members| - 1];
      DenoteMembers(members[..|members| - 1])[last.name := Denote(last.value)]
  }

  lemma {:induction false} DenoteItemsAt(items: seq<Value>, i: nat)
    requires i < |items|
    ensures DenoteItems(items)[i] == Denote(items[i])
  {
    if i > 0 {
      DenoteItemsAt(items[1..], i - 1);
    }
  }

  lemma {:induction false} DenoteMembersKeys(members: seq<Member>)
    ensures forall name :: name in DenoteMembers(members) <==> exists i :: 0 <= i < |members| && members[i].name == name
  {
    if members != [] {
      var n := |members| - 1;
      DenoteMembersKeys(members[..n]);
      forall name
        ensures name in DenoteMembers(members) <==> exists i :: 0 <= i < |members| && members[i].name == name
      {
        if name == members[n].name {
        } else if i :| 0 <= i < |members| && members[i].name == name {
          assert members[..n][i].name == name;
        } else {
          assert forall i :: 0 <= i < n ==> members[..n][i] == members[i];
        }
      }
    }
  }

  lemma {:induction false} DenoteMembersAt(members: seq<Member>)
    requires Distinct(members)
    ensures forall i :: 0 <= i < |members| ==>
              members[i].name in DenoteMembers(members) &&
                  DenoteMembers(members)[members[i].name] == Denote(members[i].value)
  {
    hide Denote;
    if members != [] {
      var n := |members| - 1;
      var front := members[..n];
      assert forall i :: 0 <= i < n ==> front[i] == members[i];
      DenoteMembersAt(front);
    }
  }

  /** With distinct names, objects holding the same members in any order mean the same. */
  lemma SameMembersSameMeaning(a: seq<Member>, b: seq<Member>)
    requires Distinct(a) && Distinct(b)
    requires forall m :: m in a <==> m in b
    ensures DenoteMembers(a) == DenoteMembers(b)
  {
    DenoteMembersAt(a);
    DenoteMembersAt(b);
    DenoteMembersKeys(a);
    DenoteMembersKeys(b);
    var da, db := DenoteMembers(a), DenoteMembers(b);
    forall name | name in da ensures name in db && db[name] == da[name] {
      var i :| 0 <= i < |a| && a[i].name == name;
      assert a[i] in b;
    }
    forall name | name in db ensures name in da {
      var i :| 0 <= i < |b| && b[i].name == name;
      assert b[i] in a;
    }
  }

  // --------------------------------------------------------------- sorting

  ghost predicate SortedByName<T>(es: seq<Entry<T>>) {
    forall i, j :: 0 <= i < j < |es| ==> Less(es[i].name, es[j].name)
  }

  function Insert<T(!new)>(e: Entry<T>, es: seq<Entry<T>>): (r: seq<Entry<T>>)
    ensures |r| == |es| + 1
    ensures forall x :: x in r <==> x == e || x in es
  {
    if es == [] then [e]
    else if Less(es[0].name, e.name) then
      assert es == [es[0]] + es[1..];
      [es[0]] + Insert(e, es[1..])
    else [e] + es
  }

  function SortByName<T(!new)>(es: seq<Entry<T>>): (r: seq<Entry<T>>)
    ensures |r| == |es|
    ensures forall x :: x in r <==> x in es
  {
    if es == [] then []
    else
      assert es == [es[0]] + es[1..];
      Insert(es[0], SortByName(es[1..]))
  }

  lemma {:induction false} InsertSorted<T(!new)>(e: Entry<T>, es: seq<Entry<T>>)
    requires SortedByName(es) && forall x :: x in es ==> x.name != e.name
    ensures SortedByName(Insert(e, es))
  {
    if es != [] {
      LessTotal(es[0].name, e.name);
      if Less(es[0].name, e.name) {
        InsertSorted(e, es[1..]);
        var r := Insert(e, es[1..]);
        forall j | 0 <= j < |r| ensures Less(es[0].name, r[j].name) {
          assert r[j] in r;
        }
      } else {
        forall j | 0 <= j < |es| ensures Less(e.name, es[j].name) {
          if j > 0 {
            LessTransitive(e.name, es[0].name, es[j].name);
          }
        }
      }
    }
  }

  lemma {:induction false} SortSorts<T(!new)>(es: seq<Entry<T>>)
    requires Distinct(es)
    ensures SortedByName(SortByName(es))
  {
    if es != [] {
      SortSorts(es[1..]);
      forall x | x in SortByName(es[1..]) ensures x.name != es[0].name {
        assert x in es[1..];
      }
      InsertSorted(es[0], SortByName(es[1..]));
    }
  }

  lemma SortedDistinct<T>(es: seq<Entry<T>>)
    requires SortedByName(es)
    ensures Distinct(es)
  {
    forall i, j | 0 <= i < j < |es| ensures es[i].name != es[j].name {
      LessTotal(es[i].name, es[j].name);
    }
  }

  /** A sorted sequence is fixed by its elements. */
  lemma {:induction false} SortedUnique<T(!new)>(a: seq<Entry<T>>, b: seq<Entry<T>>)
    requires SortedByName(a) && SortedByName(b)
    requires forall x :: x in a <==> x in b
    ensures a == b
  {
    assert a != [] ==> a[0] in b;
    assert b != [] ==> b[0] in a;
    if a != [] {
      SortedDistinct(a);
      SortedDistinct(b);
      LessTotal(a[0].name, b[0].name);
      assert a[0] == b[0];
      assert a == [a[0]] + a[1..] && b == [b[0]] + b[1..];
      forall x ensures x in a[1..] <==> x in b[1..] {
        assert x in a[1..] ==> x in a && x != a[0];
        assert x in b[1..] ==> x in b && x != b[0];
      }
      SortedUnique(a[1..], b[1..]);
    }
  }

  // ---------------------------------------------------------- normal form

  /** The same value with the members of every object sorted by name. */
  function Normal(v: Value): Value
    decreases v, 1
  {
    match v
    case Arr(items) => Arr(NormalItems(items))
    case Obj(members) => Obj(SortByName(NormalMembers(members)))
    case _ => v
  }

  function NormalItems(items: seq<Value>): (r: seq<Value>)
    ensures |r| == |items|
    decreases items, 0
  {
    if items == [] then [] else [Normal(items[0])] + NormalItems(items[1..])
  }

  function NormalMembers(members: seq<Member>): (r: seq<Member>)
    ensures |r| == |members|
    ensures forall i :: 0 <= i < |r| ==> r[i].name == members[i].name
    decreases members, 0
  {
    if members == [] then []
    else [Entry(members[0].name, Normal(members[0].value))] + NormalMembers(members[1..])
  }

  lemma {:induction false} NormalItemsAt(items: seq<Value>, i: nat)
    requires i < |items|
    ensures NormalItems(items)[i] == Normal(items[i])
  {
    if i > 0 {
      NormalItemsAt(items[1..], i - 1);
    }
  }

  lemma {:induction false} NormalMembersAt(members: seq<Member>, i: nat)
    requires i < |members|
    ensures NormalMembers(members)[i] == Entry(members[i].name, Normal(members[i].value))
  {
    if i > 0 {
      NormalMembersAt(members[1..], i - 1);
    }
  }

  ghost predicate IsNormal(v: Value) {
    match v
    case Arr(items) => forall i :: 0 <= i < |items| ==> IsNormal(items[i])
    case Obj(members) => SortedByName(members) && forall i :: 0 <= i < |members| ==> IsNormal(members[i].value)
    case _ => true
  }

  /** Normalising keeps the meaning and well-formedness and sorts every object. */
  /** Every object lists its members by the first difference of their names. */
  ghost predicate InOrder(v: Value) {
    match v
    case Arr(items) => forall i :: 0 <= i < |items| ==> InOrder(items[i])
    case Obj(members) =>
      && (forall i :: 0 <= i < |members| - 1 ==> Before(members[i].name, members[i + 1].name))
      && (forall i :: 0 <= i < |members| ==> InOrder(members[i].value))
    case _ => true
  }

  lemma {:induction false} NormalInOrder(v: Value)
    requires IsNormal(v)
    ensures InOrder(v)
  {
    hide Less, Before;
    match v
    case Arr(items) =>
      forall i | 0 <= i < |items| ensures InOrder(items[i]) {
        NormalInOrder(items[i]);
      }
    case Obj(members) =>
      forall i | 0 <= i < |members| ensures InOrder(members[i].value) {
        NormalInOrder(members[i].value);
      }
      forall i | 0 <= i < |members| - 1 ensures Before(members[i].name, members[i + 1].name) {
        LessIsBefore(members[i].name, members[i + 1].name);
      }
    case _ =>
  }

  lemma {:induction false} NormalKeepsMeaning(v: Value)
    requires WellFormed(v)
    ensures Denote(Normal(v)) == Denote(v) && WellFormed(Normal(v)) && IsNormal(Normal(v))
  {
    match v
    case Arr(items) =>
      var r := NormalItems(items);
      forall i | 0 <= i < |items|
        ensures Denote(r[i]) == Denote(items[i]) && WellFormed(r[i]) && IsNormal(r[i])
        ensures DenoteItems(r)[i] == DenoteItems(items)[i]
      {
        NormalKeepsMeaning(items[i]);
        NormalItemsAt(items, i);
        DenoteItemsAt(r, i);
        DenoteItemsAt(items, i);
      }
      assert DenoteItems(r) == DenoteItems(items);
    case Obj(members) =>
      var r := NormalMembers(members);
      forall i | 0 <= i < |members|
        ensures Denote(r[i].value) == Denote(members[i].value) && WellFormed(r[i].value) && IsNormal(r[i].value)
      {
        NormalKeepsMeaning(members[i].value);
        NormalMembersAt(members, i);
      }
      NormalMembersMeaning(members, r);
      SortSorts(r);
      var s := SortByName(r);
      SortedDistinct(s);
      SameMembersSameMeaning(r, s);
      forall i | 0 <= i < |s| ensures WellFormed(s[i].value) && IsNormal(s[i].value) {
        assert s[i] in r;
      }
    case _ =>
  }

  lemma {:induction false} NormalMembersMeaning(a: seq<Member>, b: seq<Member>)
    requires |a| == |b|
    requires forall i :: 0 <= i < |a| ==> a[i].name == b[i].name && Denote(a[i].value) == Denote(b[i].value)
    ensures DenoteMembers(a) == DenoteMembers(b)
  {
    if a != [] {
      NormalMembersMeaning(a[..|a| - 1], b[..|b| - 1]);
    }
  }

  /** Two normal values with one meaning are the same value. */
  lemma {:induction false} NormalUnique(v: Value, w: Value)
    requires IsNormal(v) && IsNormal(w) && Denote(v) == Denote(w)
    ensures v == w
    decreases v, 1
  {
    match v
    case Arr(items) =>
      forall i | 0 <= i < |items| ensures items[i] == w.items[i] {
        DenoteItemsAt(items, i);
        DenoteItemsAt(w.items, i);
        NormalUnique(items[i], w.items[i]);
      }
    case Obj(members) =>
      NormalMembersUnique(members, w.members);
    case _ =>
  }

  lemma {:induction false} NormalMembersUnique(a: seq<Member>, b: seq<Member>)
    requires SortedByName(a) && SortedByName(b)
    requires forall i :: 0 <= i < |a| ==> IsNormal(a[i].value)
    requires forall i :: 0 <= i < |b| ==> IsNormal(b[i].value)
    requires DenoteMembers(a) == DenoteMembers(b)
    ensures a == b
    decreases a, 0
  {
    assert b != [] ==> b[|b| - 1].name in DenoteMembers(b);
    if a != [] {
      var m, n := |a| - 1, |b| - 1;
      assert a[m].name in DenoteMembers(b);
      LastNamesAgree(a, b);
      NormalUnique(a[m].value, b[n].value);
      DropLast(a);
      DropLast(b);
      NormalMembersUnique(a[..m], b[..n]);
      assert a == a[..m] + [a[m]] && b == b[..n] + [b[n]];
    }
  }

  lemma LastNamesAgree(a: seq<Member>, b: seq<Member>)
    requires a != [] && b != [] && SortedByName(a) && SortedByName(b)
    requires DenoteMembers(a) == DenoteMembers(b)
    ensures a[|a| - 1].name == b[|b| - 1].name
  {
    hide DenoteMembers, Less;
    DenoteMembersKeys(a);
    DenoteMembersKeys(b);
    var x, y := a[|a| - 1].name, b[|b| - 1].name;
    assert x in DenoteMembers(b) && y in DenoteMembers(a);
    var j :| 0 <= j < |b| && b[j].name == x;
    var i :| 0 <= i < |a| && a[i].name == y;
    LessTotal(x, y);
  }

  lemma DropLast(a: seq<Member>)
    requires a != [] && SortedByName(a)
    ensures DenoteMembers(a[..|a| - 1]) == DenoteMembers(a) - {a[|a| - 1].name}
  {
    hide Denote, SortedByName;
    SortedDistinct(a);
    var last := a[|a| - 1];
    NotNamed(a[..|a| - 1], last.name);
  }

  lemma {:induction false} NotNamed(members: seq<Member>, name: Text)
    requires forall i :: 0 <= i < |members| ==> members[i].name != name
    ensures name !in DenoteMembers(members)
  {
    if members != [] {
      NotNamed(members[..|members| - 1], name);
    }
  }

  // ------------------------------------------------ sorted and own order

  /** `own` lists in the order of `es` the members that `ms` lists in sorted order. */
  ghost predicate Reordered<T(!new)>(es: seq<Entry<T>>, ms: seq<Member>, own: seq<Member>, at: seq<nat>) {
    && |ms| == |own| == |at| == |es|
    && (forall i :: 0 <= i < |ms| ==> ms[i].name == SortByName(es)[i].name)
    && (forall i :: 0 <= i < |es| ==> at[i] < |es| && SortByName(es)[at[i]] == es[i] && own[i] == ms[at[i]])
  }

  /** Where in `b` the elements of `a` stand. */
  lemma Positions<T>(a: seq<T>, b: seq<T>) returns (at: seq<nat>)
    requires forall i :: 0 <= i < |a| ==> a[i] in b
    ensures |at| == |a|
    ensures forall i :: 0 <= i < |a| ==> at[i] < |b| && b[at[i]] == a[i]
  {
    at := [];
    while |at| < |a|
      invariant |at| <= |a|
      invariant forall i :: 0 <= i < |at| ==> at[i] < |b| && b[at[i]] == a[i]
    {
      assert a[|at|] in b;
      var j :| 0 <= j < |b| && b[j] == a[|at|];
      at := at + [j];
    }
  }

  /** Puts members printed in sorted order back into own-key order. */
  lemma Unsort<T(!new)>(es: seq<Entry<T>>, ms: seq<Member>) returns (own: seq<Member>, at: seq<nat>)
    requires Distinct(es) && |ms| == |es|
    requires forall i :: 0 <= i < |ms| ==> ms[i].name == SortByName(es)[i].name
    ensures Reordered(es, ms, own, at)
    ensures SortByName(NormalMembers(own)) == NormalMembers(ms)
  {
    hide Less, SortByName, NormalMembers;
    at := Positions(es, SortByName(es));
    own := seq(|es|, i requires 0 <= i < |es| => ms[at[i]]);
    ReorderedSorts(es, ms, own, at);
  }

  /** Lists members given in own-key order in sorted order. */
  lemma Resort<T(!new)>(es: seq<Entry<T>>, own: seq<Member>) returns (ms: seq<Member>, at: seq<nat>)
    requires Distinct(es) && |own| == |es|
    requires forall i :: 0 <= i < |es| ==> own[i].name == es[i].name
    ensures Reordered(es, ms, own, at)
    ensures SortByName(NormalMembers(own)) == NormalMembers(ms)
  {
    hide Less, SortByName, NormalMembers;
    at := Positions(es, SortByName(es));
    var back := Positions(SortByName(es), es);
    ms := seq(|es|, j requires 0 <= j < |es| => own[back[j]]);
    forall i | 0 <= i < |es| ensures back[at[i]] == i {
      assert es[back[at[i]]].name == es[i].name;
    }
    ReorderedSorts(es, ms, own, at);
  }

  lemma ReorderedSorts<T(!new)>(es: seq<Entry<T>>, ms: seq<Member>, own: seq<Member>, at: seq<nat>)
    requires Distinct(es) && Reordered(es, ms, own, at)
    ensures SortByName(NormalMembers(own)) == NormalMembers(ms)
  {
    hide Less, Normal, SortByName, NormalMembers;
    var sorted := SortByName(es);
    SortSorts(es);
    SortedDistinct(sorted);
    var back := Positions(sorted, es);
    forall j | 0 <= j < |es| ensures ms[j] == own[back[j]] {
      assert sorted[at[back[j]]].name == sorted[j].name;
    }
    NormalMembersSubset(own, ms, at);
    NormalMembersSubset(ms, own, back);
    SortSorts(NormalMembers(own));
    SortedUnique(SortByName(NormalMembers(own)), NormalMembers(ms));
  }

  lemma NormalMembersSubset(a: seq<Member>, b: seq<Member>, at: seq<nat>)
    requires |at| == |a| && forall i :: 0 <= i < |a| ==> at[i] < |b| && a[i] == b[at[i]]
    ensures forall x :: x in NormalMembers(a) ==> x in NormalMembers(b)
  {
    hide Normal;
    forall x | x in NormalMembers(a) ensures x in NormalMembers(b) {
      var i :| 0 <= i < |a| && NormalMembers(a)[i] == x;
      NormalMembersAt(a, i);
      NormalMembersAt(b, at[i]);
    }
  }

  // -------------------------------------------------------- main results

  function CanonicalText(v: Value): Text {
    Print(Normal(v))
  }

  /** Reading canonical text gives back the value up to member order. */
  lemma CanonicalRoundTrip(v: Value)
    requires WellFormed(v)
    ensures Parse(CanonicalText(v)) == Got(Normal(v), [])
    ensures Denote(Parse(CanonicalText(v)).value) == Denote(v)
  {
    NormalKeepsMeaning(v);
    ParsePrint(Normal(v), []);
    assert Print(Normal(v)) + [] == Print(Normal(v));
  }

  /** Comparing canonical texts decides equality with members unordered; this
      is what `same`, `equal` and the digests rest on. */
  lemma CanonicalTextDecidesEquality(v: Value, w: Value)
    requires WellFormed(v) && WellFormed(w)
    ensures CanonicalText(v) == CanonicalText(w) <==> Denote(v) == Denote(w)
  {
    NormalKeepsMeaning(v);
    NormalKeepsMeaning(w);
    if CanonicalText(v) == CanonicalText(w) {
      CanonicalRoundTrip(v);
      CanonicalRoundTrip(w);
    } else if Denote(v) == Denote(w) {
      NormalUnique(Normal(v), Normal(w));
    }
  }

  /** Two orderings of the same members have one canonical text. */
  lemma MemberOrderIsInvisible(a: seq<Member>, b: seq<Member>)
    requires WellFormed(Obj(a)) && WellFormed(Obj(b))
    requires forall m :: m in a <==> m in b
    ensures CanonicalText(Obj(a)) == CanonicalText(Obj(b))
  {
    SameMembersSameMeaning(a, b);
    CanonicalTextDecidesEquality(Obj(a), Obj(b));
  }
}

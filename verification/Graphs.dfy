/** Object graphs as a heap, and what it means for one to unfold to a tree. */
module Graphs {
  import opened Texts
  import opened Json

  /** Values that are not objects; `safe` is false for an integer outside the
      exactly represented range, `Other` is undefined, a function, a symbol or a bigint. */
  datatype Prim =
    | NullP
    | BoolP(b: bool)
    | NumP(lexeme: Numeral, safe: bool)
    | NegativeZero
    | NonFinite
    | StrP(s: Text)
    | Other

  datatype Val = Leaf(p: Prim) | Ref(id: nat)

  /** A property descriptor: missing, not enumerable, an accessor, an
      enumerable accessor with neither function, or enumerable data. */
  datatype Slot = Hole | Hidden | Accessor | EmptyAccessor | Data(v: Val)

  /** `extras` counts own keys of an array besides its indices and length,
      `symbols` the symbol keys of an object. */
  datatype Node =
    | ArrayNode(native: bool, extras: nat, slots: seq<Slot>)
    | ObjectNode(plain: bool, symbols: nat, entries: seq<Entry<Slot>>)

  type Heap = map<nat, Node>

  /** The own keys of an object are distinct. */
  ghost predicate DistinctKeys(h: Heap) {
    forall r :: r in h && h[r].ObjectNode? ==> Distinct(h[r].entries)
  }

  /** The three serializers over one kind of heap. */
  datatype Profile = CanonicalProfile | CapabilityProfile | CatalogProfile

  const ZERO: Numeral := [48]

  /** The JSON value a profile accepts a primitive as. */
  function Admit(p: Profile, x: Prim): Option<Value> {
    match x
    case NullP => Some(Null)
    case BoolP(b) => Some(Bool(b))
    case NumP(l, safe) => if p == CatalogProfile && !safe then None else Some(Num(l))
    case NegativeZero => if p == CanonicalProfile then None else Some(Num(ZERO))
    case StrP(s) => if p == CanonicalProfile && !Paired(s) then None else Some(Str(s))
    case _ => None
  }

  ghost predicate AdmitNode(p: Profile, n: Node) {
    match n
    case ArrayNode(native, extras, slots) =>
      && (p == CanonicalProfile || native) && extras == 0
      && forall i :: 0 <= i < |slots| ==> slots[i].Data?
    case ObjectNode(plain, symbols, entries) =>
      && plain && symbols == 0
      && forall i :: 0 <= i < |entries| ==>
           entries[i].value.Data? && (p == CanonicalProfile ==> Paired(entries[i].name))
  }

  /** The finite tree `t` is what the graph looks like from `v`, in own-key order. */
  ghost predicate Unfolds(p: Profile, h: Heap, v: Val, t: Value)
    decreases t
  {
    match v
    case Leaf(x) => Admit(p, x) == Some(t)
    case Ref(r) =>
      && r in h && AdmitNode(p, h[r])
      && match h[r]
         case ArrayNode(_, _, slots) =>
           && t.Arr? && |t.items| == |slots|
           && forall i :: 0 <= i < |slots| ==> Unfolds(p, h, slots[i].v, t.items[i])
         case ObjectNode(_, _, entries) =>
           && t.Obj? && |t.members| == |entries|
           && forall i :: 0 <= i < |entries| ==>
                entries[i].name == t.members[i].name && Unfolds(p, h, entries[i].value.v, t.members[i].value)
  }

  /** A graph has at most one unfolding, and all profiles that accept it agree on it. */
  lemma {:induction false} UnfoldsUnique(p: Profile, q: Profile, h: Heap, v: Val, t: Value, u: Value)
    requires Unfolds(p, h, v, t) && Unfolds(q, h, v, u)
    ensures t == u
    decreases t
  {
    if v.Ref? {
      match h[v.id]
      case ArrayNode(_, _, slots) =>
        forall i | 0 <= i < |slots| ensures t.items[i] == u.items[i] {
          UnfoldsUnique(p, q, h, slots[i].v, t.items[i], u.items[i]);
        }
      case ObjectNode(_, _, entries) =>
        forall i | 0 <= i < |entries| ensures t.members[i] == u.members[i] {
          UnfoldsUnique(p, q, h, entries[i].value.v, t.members[i].value, u.members[i].value);
        }
    }
  }

  lemma {:induction false} UnfoldsWellFormed(p: Profile, h: Heap, v: Val, t: Value)
    requires DistinctKeys(h) && Unfolds(p, h, v, t)
    ensures WellFormed(t)
    decreases t
  {
    if v.Ref? {
      match h[v.id]
      case ArrayNode(_, _, slots) =>
        forall i | 0 <= i < |slots| ensures WellFormed(t.items[i]) {
          UnfoldsWellFormed(p, h, slots[i].v, t.items[i]);
        }
      case ObjectNode(_, _, entries) =>
        forall i | 0 <= i < |entries| ensures WellFormed(t.members[i].value) {
          UnfoldsWellFormed(p, h, entries[i].value.v, t.members[i].value);
        }
    }
  }

  // -------------------------------------------------------- cycles and paths

  ghost predicate Edge(h: Heap, a: nat, b: nat) {
    && a in h
    && match h[a]
       case ArrayNode(_, _, slots) => exists i :: 0 <= i < |slots| && slots[i] == Data(Ref(b))
       case ObjectNode(_, _, entries) => exists i :: 0 <= i < |entries| && entries[i].value == Data(Ref(b))
  }

  ghost predicate Path(h: Heap, path: seq<nat>) {
    path != [] && forall i :: 0 < i < |path| ==> Edge(h, path[i - 1], path[i])
  }

  ghost predicate Simple(path: seq<nat>) {
    forall i, j :: 0 <= i < j < |path| ==> path[i] != path[j]
  }

  /** Every primitive a node holds directly is admissible. */
  ghost predicate AdmitLeaves(p: Profile, n: Node) {
    match n
    case ArrayNode(_, _, slots) =>
      forall i :: 0 <= i < |slots| && slots[i].Data? && slots[i].v.Leaf? ==> Admit(p, slots[i].v.p).Some?
    case ObjectNode(_, _, entries) =>
      forall i :: 0 <= i < |entries| && entries[i].value.Data? && entries[i].value.v.Leaf? ==>
        Admit(p, entries[i].value.v.p).Some?
  }

  ghost predicate GoodPath(p: Profile, h: Heap, path: seq<nat>)
    requires path != []
  {
    var r := path[|path| - 1];
    Simple(path) && r in h && AdmitNode(p, h[r]) && AdmitLeaves(p, h[r])
  }

  /** No cycle can be reached from `v` and everything reachable is admissible. */
  ghost predicate AcyclicAdmissible(p: Profile, h: Heap, v: Val) {
    match v
    case Leaf(x) => Admit(p, x).Some?
    case Ref(r) => forall path :: Path(h, path) && path[0] == r ==> GoodPath(p, h, path)
  }

  /** The unfolding of a child is a proper part of its parent's. */
  lemma UnfoldsChild(p: Profile, h: Heap, a: nat, b: nat, t: Value) returns (u: Value)
    requires Edge(h, a, b) && Unfolds(p, h, Ref(a), t)
    ensures Unfolds(p, h, Ref(b), u) && Depth(u) < Depth(t)
  {
    match h[a]
    case ArrayNode(_, _, slots) =>
      var i :| 0 <= i < |slots| && slots[i] == Data(Ref(b));
      ItemDepth(t.items, i);
      u := t.items[i];
    case ObjectNode(_, _, entries) =>
      var i :| 0 <= i < |entries| && entries[i].value == Data(Ref(b));
      MemberDepth(t.members, i);
      u := t.members[i].value;
  }

  /** Along a path unfoldings get strictly shallower. */
  lemma {:induction false} UnfoldsAlong(p: Profile, h: Heap, path: seq<nat>, i: nat, j: nat, t: Value)
      returns (u: Value)
    requires i <= j < |path| && Path(h, path) && Unfolds(p, h, Ref(path[i]), t)
    ensures Unfolds(p, h, Ref(path[j]), u)
    ensures if i < j then Depth(u) < Depth(t) else u == t
    decreases j - i
  {
    u := t;
    if i < j {
      assert Edge(h, path[i + 1 - 1], path[i + 1]);
      u := UnfoldsChild(p, h, path[i], path[i + 1], t);
      u := UnfoldsAlong(p, h, path, i + 1, j, u);
    }
  }

  /** A graph that unfolds has no reachable cycle and nothing inadmissible in reach. */
  lemma UnfoldsAcyclic(p: Profile, h: Heap, v: Val, t: Value)
    requires Unfolds(p, h, v, t)
    ensures AcyclicAdmissible(p, h, v)
  {
    if v.Ref? {
      forall path | Path(h, path) && path[0] == v.id ensures GoodPath(p, h, path) {
        UnfoldsGoodPath(p, h, path, t);
      }
    }
  }

  lemma UnfoldsGoodPath(p: Profile, h: Heap, path: seq<nat>, t: Value)
    requires Path(h, path) && Unfolds(p, h, Ref(path[0]), t)
    ensures GoodPath(p, h, path)
  {
    forall i, j | 0 <= i < j < |path| ensures path[i] != path[j] {
      var a := UnfoldsAlong(p, h, path, 0, i, t);
      var b := UnfoldsAlong(p, h, path, i, j, a);
      if path[i] == path[j] {
        UnfoldsUnique(p, p, h, Ref(path[i]), a, b);
      }
    }
    var u := UnfoldsAlong(p, h, path, 0, |path| - 1, t);
  }
}

/** What `parse` accepts: the duplicate-name scan followed by the bounded tree walk. */
module ApiResponse {
  import opened Texts
  import opened Json
  import opened Scanner
  import opened Documents

  /** A parsed value as far as the walk looks at it. */
  datatype Tree = Leaf | Real(finite: bool) | Branch(children: seq<Tree>)

  function Nodes(t: Tree): (n: nat)
    ensures n >= 1
    decreases t, 1
  {
    1 + if t.Branch? then ForestNodes(t.children) else 0
  }

  function ForestNodes(ts: seq<Tree>): nat
    decreases ts, 0
  {
    if ts == [] then 0 else Nodes(ts[0]) + ForestNodes(ts[1..])
  }

  function Height(t: Tree): nat
    decreases t, 1
  {
    if t.Branch? then ForestHeight(t.children) else 0
  }

  function ForestHeight(ts: seq<Tree>): nat
    decreases ts, 0
  {
    if ts == [] then 0 else Max(1 + Height(ts[0]), ForestHeight(ts[1..]))
  }

  predicate AllFinite(t: Tree) {
    match t
    case Leaf => true
    case Real(finite) => finite
    case Branch(children) => forall i :: 0 <= i < |children| ==> AllFinite(children[i])
  }

  // --------------------------------------------------------- the tree walk

  datatype Pending = Pending(tree: Tree, depth: nat)

  function StackNodes(stack: seq<Pending>): nat {
    if stack == [] then 0 else StackNodes(stack[..|stack| - 1]) + Nodes(stack[|stack| - 1].tree)
  }

  ghost predicate StackFinite(stack: seq<Pending>) {
    forall i :: 0 <= i < |stack| ==> AllFinite(stack[i].tree)
  }

  ghost predicate StackShallow(stack: seq<Pending>) {
    forall i :: 0 <= i < |stack| ==> stack[i].depth + Height(stack[i].tree) <= MAX_DEPTH
  }

  lemma {:induction false} StackNodesPush(stack: seq<Pending>, ts: seq<Tree>, depth: nat)
    ensures StackNodes(stack + Pushed(ts, depth)) == StackNodes(stack) + ForestNodes(ts)
    decreases |ts|
  {
    if ts == [] {
      assert stack + Pushed(ts, depth) == stack;
    } else {
      var one := stack + [Pending(ts[0], depth)];
      assert one[..|stack|] == stack;
      assert stack + Pushed(ts, depth) == one + Pushed(ts[1..], depth);
      StackNodesPush(one, ts[1..], depth);
    }
  }

  function Pushed(ts: seq<Tree>, depth: nat): seq<Pending> {
    seq(|ts|, i requires 0 <= i < |ts| => Pending(ts[i], depth))
  }

  lemma {:induction false} ForestHeightBound(ts: seq<Tree>, bound: nat)
    ensures ForestHeight(ts) <= bound <==> forall i :: 0 <= i < |ts| ==> 1 + Height(ts[i]) <= bound
  {
    if ts != [] {
      ForestHeightBound(ts[1..], bound);
      assert forall i :: 0 < i < |ts| ==> ts[i] == ts[1..][i - 1];
    }
  }

  lemma StackPop(stack: seq<Pending>)
    requires stack != []
    ensures var top, rest := stack[|stack| - 1], stack[..|stack| - 1];
            && StackNodes(stack) == StackNodes(rest) + Nodes(top.tree)
            && (StackFinite(stack) <==> StackFinite(rest) && AllFinite(top.tree))
            && (StackShallow(stack) <==> StackShallow(rest) && top.depth + Height(top.tree) <= MAX_DEPTH)
  {
    hide Nodes, AllFinite, Height;
    var top, rest := stack[|stack| - 1], stack[..|stack| - 1];
    assert forall i :: 0 <= i < |stack| ==> stack[i] == if i < |rest| then rest[i] else top;
    assert forall i :: 0 <= i < |rest| ==> rest[i] == stack[i];
  }

  lemma StackPush(rest: seq<Pending>, top: Pending)
    requires top.tree.Branch? && top.depth <= MAX_DEPTH
    ensures var next := rest + Pushed(top.tree.children, top.depth + 1);
            && StackNodes(next) + 1 == StackNodes(rest) + Nodes(top.tree)
            && (StackFinite(next) <==> StackFinite(rest) && AllFinite(top.tree))
            && (StackShallow(next) <==> StackShallow(rest) && top.depth + Height(top.tree) <= MAX_DEPTH)
  {
    hide StackNodes, ForestNodes, ForestHeight;
    var ts := top.tree.children;
    var next, k := rest + Pushed(ts, top.depth + 1), |rest|;
    StackNodesPush(rest, ts, top.depth + 1);
    ForestHeightBound(ts, MAX_DEPTH - top.depth);
    assert forall i :: 0 <= i < |ts| ==> next[k + i] == Pending(ts[i], top.depth + 1);
    assert forall i :: 0 <= i < |next| ==> next[i] == if i < k then rest[i] else Pending(ts[i - k], top.depth + 1);
    assert forall i :: 0 <= i < k ==> next[i] == rest[i];
  }

  /** The explicit-stack walk: it passes exactly the trees with at most
      MAX_NODES nodes, no node deeper than MAX_DEPTH and finite numbers only. */
  method CheckTree(tree: Tree) returns (fault: Option<Fault>)
    ensures fault.None? <==> Nodes(tree) <= MAX_NODES && Height(tree) <= MAX_DEPTH && AllFinite(tree)
    ensures fault == Some(InvalidJson) ==> !AllFinite(tree)
    ensures fault == Some(BoundExceeded) ==> Nodes(tree) > MAX_NODES || Height(tree) > MAX_DEPTH
  {
    hide AllFinite, Height, StackNodes, StackFinite, StackShallow;
    var stack, nodes := [Pending(tree, 0)], 0;
    StackOne(tree);
    while stack != []
      invariant nodes <= MAX_NODES && nodes + StackNodes(stack) == Nodes(tree)
      invariant StackFinite(stack) <==> AllFinite(tree)
      invariant StackShallow(stack) <==> Height(tree) <= MAX_DEPTH
      decreases StackNodes(stack)
    {
      StackPop(stack);
      var top := stack[|stack| - 1];
      stack := stack[..|stack| - 1];
      nodes := nodes + 1;
      if !(nodes <= MAX_NODES && top.depth <= MAX_DEPTH) {
        return Some(BoundExceeded);
      }
      if top.tree.Real? && !top.tree.finite {
        LeafMeaning(top.tree);
        return Some(InvalidJson);
      }
      if top.tree.Branch? {
        StackPush(stack, top);
        stack := stack + Pushed(top.tree.children, top.depth + 1);
      } else {
        LeafMeaning(top.tree);
      }
    }
    StackEmpty();
    fault := None;
  }

  lemma LeafMeaning(t: Tree)
    requires !t.Branch?
    ensures Nodes(t) == 1 && Height(t) == 0 && (AllFinite(t) <==> t.Real? ==> t.finite)
  {
  }

  lemma StackOne(tree: Tree)
    ensures StackNodes([Pending(tree, 0)]) == Nodes(tree)
    ensures StackFinite([Pending(tree, 0)]) <==> AllFinite(tree)
    ensures StackShallow([Pending(tree, 0)]) <==> Height(tree) <= MAX_DEPTH
  {
    StackPop([Pending(tree, 0)]);
    StackEmpty();
    assert [Pending(tree, 0)][..0] == [];
  }

  lemma StackEmpty()
    ensures StackNodes([]) == 0 && StackFinite([]) && StackShallow([])
  {
  }

  // ------------------------------------------------------ texts and trees

  /** The tree of a document; `finite` says which numbers a double can hold. */
  function TreeOf(d: Doc, finite: Text -> bool): Tree
    decreases d, 1
  {
    match d
    case Word(_) => Leaf
    case Number(minus, whole, fraction, exponent) => Real(finite(NumberText(minus, whole, fraction, exponent)))
    case Chars(_) => Leaf
    case List(items, _) => Branch(ItemTrees(items, finite))
    case Record(pairs, _) => Branch(PairTrees(pairs, finite))
  }

  function ItemTrees(items: seq<Padded>, finite: Text -> bool): seq<Tree>
    decreases items, 0
  {
    if items == [] then [] else [TreeOf(items[0].doc, finite)] + ItemTrees(items[1..], finite)
  }

  function PairTrees(pairs: seq<Pair>, finite: Text -> bool): seq<Tree>
    decreases pairs, 0
  {
    if pairs == [] then [] else [TreeOf(pairs[0].item.doc, finite)] + PairTrees(pairs[1..], finite)
  }

  /** The tree is never deeper than the containers nest in the text. */
  lemma {:induction false} HeightWithinNesting(d: Doc, finite: Text -> bool)
    ensures Height(TreeOf(d, finite)) <= Nesting(d)
    decreases d, 1
  {
    match d
    case List(items, _) => ItemsHeight(items, finite);
    case Record(pairs, _) => PairsHeight(pairs, finite);
    case _ =>
  }

  lemma {:induction false} ItemsHeight(items: seq<Padded>, finite: Text -> bool)
    ensures ForestHeight(ItemTrees(items, finite)) <= 1 + ItemsNesting(items)
    decreases items, 0
  {
    if items != [] {
      HeightWithinNesting(items[0].doc, finite);
      ItemsHeight(items[1..], finite);
      assert ItemTrees(items, finite)[1..] == ItemTrees(items[1..], finite);
    }
  }

  lemma {:induction false} PairsHeight(pairs: seq<Pair>, finite: Text -> bool)
    ensures ForestHeight(PairTrees(pairs, finite)) <= 1 + PairsNesting(pairs)
    decreases pairs, 0
  {
    if pairs != [] {
      HeightWithinNesting(pairs[0].item.doc, finite);
      PairsHeight(pairs[1..], finite);
      assert PairTrees(pairs, finite)[1..] == PairTrees(pairs[1..], finite);
    }
  }

  // ------------------------------------------------------------ the parser

  /** A text derived from the grammar, white space around the value included. */
  ghost predicate Derives(p: Padded, json: Text) {
    Blank(p.pre) && Grammatical(p.doc) && Blank(p.post) && RenderPadded(p) == json
  }

  /** What is taken from the library parser: it reads exactly the texts of
      the grammar, and reads a text without repeated names as its tree. No text
      is excluded by it: all derivations of a text have the same tree
      (`Unambiguous.LibraryParseTotal`). */
  ghost predicate LibraryParse(json: Text, parsed: Option<Tree>, finite: Text -> bool) {
    && (parsed.Some? <==> exists p :: Derives(p, json))
    && (parsed.Some? ==> forall p :: Derives(p, json) && NoDuplicates(p.doc) ==> parsed.value == TreeOf(p.doc, finite))
  }

  predicate Readable(json: Text, bytes: nat) {
    json != [] && 0 !in json && |json| <= bytes && Utf8Len(json) <= bytes
  }

  ghost predicate Acceptable(d: Doc, finite: Text -> bool) {
    && NoDuplicates(d) && Nesting(d) <= MAX_DEPTH
    && AllFinite(TreeOf(d, finite)) && Nodes(TreeOf(d, finite)) <= MAX_NODES
  }

  datatype Parsed = Accepted(tree: Tree) | Rejected(fault: Fault)

  /** On every derivable text the scan passes exactly the texts without
      repeated names and nested at most MAX_DEPTH deep, and after it the
      depth test of the tree walk cannot fail. */
  lemma ScanExact(p: Padded, json: Text, finite: Text -> bool)
    requires Derives(p, json)
    ensures Scan(json, []).None? <==> NoDuplicates(p.doc) && Nesting(p.doc) <= MAX_DEPTH
    ensures Scan(json, []).None? ==> Height(TreeOf(p.doc, finite)) <= MAX_DEPTH
  {
    hide Scan, Grammatical, Verdict, NoDuplicates, Nesting, Height, TreeOf;
    assert RenderPadded(p) + [] == json;
    ScanPadded(p, [], []);
    ScanNothing();
    VerdictExact(p.doc, 0);
    HeightWithinNesting(p.doc, finite);
  }

  lemma ScanNothing()
    ensures Scan([], []) == None
  {
  }

  /** A text is accepted exactly when it is readable, derivable and acceptable. */
  method ParseResponse(json: Text, bytes: nat, parsed: Option<Tree>, ghost finite: Text -> bool) returns (r: Parsed)
    requires LibraryParse(json, parsed, finite)
    ensures r.Accepted? ==> exists p :: Derives(p, json)
    ensures forall p :: Derives(p, json) ==> (r.Accepted? <==> Readable(json, bytes) && Acceptable(p.doc, finite))
    ensures forall p :: Derives(p, json) && r.Accepted? ==> r.tree == TreeOf(p.doc, finite)
    ensures forall p :: Derives(p, json) && r == Rejected(InvalidJson) && Readable(json, bytes) ==>
              !NoDuplicates(p.doc) || !AllFinite(TreeOf(p.doc, finite))
    ensures !Readable(json, bytes) ==> r == Rejected(BoundExceeded)
    ensures Readable(json, bytes) && !(exists p :: Derives(p, json)) ==> r == Rejected(InvalidJson)
    ensures forall p :: Derives(p, json) && r == Rejected(BoundExceeded) && Readable(json, bytes) ==>
              Nesting(p.doc) > MAX_DEPTH || Nodes(TreeOf(p.doc, finite)) > MAX_NODES
    ensures forall p :: Derives(p, json) && r == Rejected(BoundExceeded) && Readable(json, bytes) ==>
              NoDuplicates(p.doc) || Nesting(p.doc) > MAX_DEPTH
  {
    hide Derives, Scan, NoDuplicates, Nesting, Height, TreeOf, AllFinite, Nodes, Utf8Len;
    if !Readable(json, bytes) {
      return Rejected(BoundExceeded);
    }
    if parsed.None? {
      return Rejected(InvalidJson);
    }
    var scanned := ScanNames(json);
    forall p | Derives(p, json)
      ensures scanned.None? <==> NoDuplicates(p.doc) && Nesting(p.doc) <= MAX_DEPTH
      ensures scanned.None? ==> parsed.value == TreeOf(p.doc, finite) && Height(parsed.value) <= MAX_DEPTH
      ensures scanned == Some(InvalidJson) ==> !NoDuplicates(p.doc)
      ensures scanned == Some(BoundExceeded) ==> Nesting(p.doc) > MAX_DEPTH
    {
      ScanExact(p, json, finite);
      InvalidMeansRepeated(p, json);
      BoundMeansDeep(p, json);
    }
    if scanned.Some? {
      return Rejected(scanned.value);
    }
    var walked := CheckTree(parsed.value);
    r := if walked.Some? then Rejected(walked.value) else Accepted(parsed.value);
  }

  /** The scan calls a derivable text invalid only because a name is repeated. */
  lemma InvalidMeansRepeated(p: Padded, json: Text)
    requires Derives(p, json)
    ensures Scan(json, []) == Some(InvalidJson) ==> !NoDuplicates(p.doc)
  {
    hide Scan, Grammatical, Verdict, NoDuplicates;
    assert RenderPadded(p) + [] == json;
    ScanPadded(p, [], []);
    ScanNothing();
    if NoDuplicates(p.doc) {
      DistinctNeverInvalid(p.doc, 0);
    }
  }

  lemma {:induction false} DistinctNeverInvalid(d: Doc, depth: nat)
    requires Grammatical(d) && NoDuplicates(d)
    ensures Verdict(d, depth) != Some(InvalidJson)
    decreases d, 1
  {
    hide StringBody, Decoded;
    match d
    case List(items, _) => DistinctItems(items, depth + 1);
    case Record(pairs, _) => DistinctPairs(pairs, {}, depth + 1);
    case _ =>
  }

  lemma {:induction false} DistinctItems(items: seq<Padded>, depth: nat)
    requires forall i :: 0 <= i < |items| ==> Grammatical(items[i].doc) && NoDuplicates(items[i].doc)
    ensures ItemsVerdict(items, depth) != Some(InvalidJson)
    decreases items, 0
  {
    hide Grammatical, NoDuplicates, Verdict;
    if items != [] {
      DistinctNeverInvalid(items[0].doc, depth);
      DistinctItems(items[1..], depth);
    }
  }

  lemma {:induction false} DistinctPairs(pairs: seq<Pair>, seen: set<Text>, depth: nat)
    requires forall i :: 0 <= i < |pairs| ==>
               StringBody(pairs[i].raw) && Grammatical(pairs[i].item.doc) && NoDuplicates(pairs[i].item.doc)
    requires Fresh(pairs, seen)
    ensures PairsVerdict(pairs, seen, depth) != Some(InvalidJson)
    decreases pairs, 0
  {
    hide Grammatical, NoDuplicates, Verdict, StringBody, Decoded;
    if pairs != [] {
      FreshStep(pairs, seen);
      DistinctNeverInvalid(pairs[0].item.doc, depth);
      DistinctPairs(pairs[1..], seen + {Decoded(pairs[0].raw)}, depth);
    }
  }

  /** The scan finds a derivable text too large only because it nests too deep. */
  lemma BoundMeansDeep(p: Padded, json: Text)
    requires Derives(p, json)
    ensures Scan(json, []) == Some(BoundExceeded) ==> Nesting(p.doc) > MAX_DEPTH
  {
    hide Scan, Grammatical, Verdict, Nesting;
    assert RenderPadded(p) + [] == json;
    ScanPadded(p, [], []);
    ScanNothing();
    if Nesting(p.doc) <= MAX_DEPTH {
      ShallowNeverBound(p.doc, 0);
    }
  }

  lemma {:induction false} ShallowNeverBound(d: Doc, depth: nat)
    requires depth + Nesting(d) <= MAX_DEPTH
    ensures Verdict(d, depth) != Some(BoundExceeded)
    decreases d, 1
  {
    hide StringBody, Decoded;
    match d
    case List(items, _) => ShallowItems(items, depth + 1);
    case Record(pairs, _) => ShallowPairs(pairs, {}, depth + 1);
    case _ =>
  }

  lemma {:induction false} ShallowItems(items: seq<Padded>, depth: nat)
    requires depth + ItemsNesting(items) <= MAX_DEPTH
    ensures ItemsVerdict(items, depth) != Some(BoundExceeded)
    decreases items, 0
  {
    hide Nesting, Verdict;
    if items != [] {
      ShallowNeverBound(items[0].doc, depth);
      ShallowItems(items[1..], depth);
    }
  }

  lemma {:induction false} ShallowPairs(pairs: seq<Pair>, seen: set<Text>, depth: nat)
    requires depth + PairsNesting(pairs) <= MAX_DEPTH
    ensures PairsVerdict(pairs, seen, depth) != Some(BoundExceeded)
    decreases pairs, 0
  {
    hide Nesting, Verdict, StringBody, Decoded;
    if pairs != [] {
      ShallowNeverBound(pairs[0].item.doc, depth);
      if StringBody(pairs[0].raw) {
        ShallowPairs(pairs[1..], seen + {Decoded(pairs[0].raw)}, depth);
      }
    }
  }
}

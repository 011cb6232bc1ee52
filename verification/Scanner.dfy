/** The single-pass duplicate-name scan over a JSON text. */
module Scanner {
  import opened Texts

  const MAX_NODES := 32768
  const MAX_DEPTH := 32

  datatype Fault = InvalidJson | BoundExceeded

  /** One open container; only objects remember names. */
  datatype Frame = InArray | InObject(keys: set<Text>, nextKey: bool)

  // ------------------------------------------------- what it computes

  /** How far the closing quote is, past escaped units. */
  function Skip(t: Text): nat
    decreases |t|
  {
    if t == [] || t[0] == QUOTE then 0
    else if t[0] != BACKSLASH then 1 + Skip(t[1..])
    else if |t| < 2 then 2
    else 2 + Skip(t[2..])
  }

  function Drop(t: Text, n: nat): Text {
    if n <= |t| then t[n..] else []
  }

  function Take(t: Text, n: nat): Text {
    if n <= |t| then t[..n] else t
  }

  predicate KeyExpected(stack: seq<Frame>) {
    stack != [] && stack[|stack| - 1].InObject? && stack[|stack| - 1].nextKey
  }

  function Replace(stack: seq<Frame>, top: Frame): seq<Frame>
    requires stack != []
  {
    stack[..|stack| - 1] + [top]
  }

  /** The stack after the token at the start of `t`, or the fault it raises;
      `t` starts with a quote when a whole string is one token. */
  function Advance(t: Text, stack: seq<Frame>): Outcome
    requires t != []
  {
    var c := t[0];
    if c == QUOTE then
      if !KeyExpected(stack) then Go(stack)
      else
        match Unquote(Take(t[1..], Skip(t[1..]) + 1))
        case Fail => Stop(InvalidJson)
        case Got(key, _) =>
          var top := stack[|stack| - 1];
          if key in top.keys then Stop(InvalidJson) else Go(Replace(stack, InObject(top.keys + {key}, false)))
    else if c == LBRACE then Go(stack + [InObject({}, true)])
    else if c == LBRACKET then Go(stack + [InArray])
    else if c == RBRACE || c == RBRACKET then Go(if stack == [] then [] else stack[..|stack| - 1])
    else if c == COMMA && stack != [] && stack[|stack| - 1].InObject? then
      Go(Replace(stack, stack[|stack| - 1].(nextKey := true)))
    else Go(stack)
  }

  datatype Outcome = Go(stack: seq<Frame>) | Stop(fault: Fault)

  function TokenLength(t: Text): nat
    requires t != []
  {
    if t[0] == QUOTE then Skip(t[1..]) + 2 else 1
  }

  function Scan(t: Text, stack: seq<Frame>): Option<Fault>
    decreases |t|
  {
    if t == [] then None
    else
      match Advance(t, stack)
      case Stop(fault) => Some(fault)
      case Go(next) => if |next| > MAX_DEPTH then Some(BoundExceeded) else Scan(Drop(t, TokenLength(t)), next)
  }

  // ------------------------------------------------------ the algorithm

  lemma SkipStep(json: Text, index: nat)
    requires index < |json| && json[index] != QUOTE
    ensures Skip(Drop(json, index)) == if json[index] == BACKSLASH then 2 + Skip(Drop(json, index + 2))
        else 1 + Skip(Drop(json, index + 1))
  {
    var t := json[index..];
    assert t[1..] == Drop(json, index + 1);
    if |t| >= 2 {
      assert t[2..] == Drop(json, index + 2);
    }
  }

  method SkipString(json: Text, start: nat) returns (index: nat)
    requires start <= |json|
    ensures index == start + Skip(json[start..])
  {
    hide Skip, Drop;
    index := start;
    DropIs(json, start);
    while index < |json| && json[index] != QUOTE
      invariant start <= index
      invariant start + Skip(json[start..]) == index + Skip(Drop(json, index))
    {
      SkipStep(json, index);
      if json[index] == BACKSLASH {
        index := index + 1;
      }
      index := index + 1;
    }
    SkipEnd(json, index);
  }

  lemma SkipEnd(json: Text, index: nat)
    requires index >= |json| || json[index] == QUOTE
    ensures Skip(Drop(json, index)) == 0
  {
  }

  lemma DropIs(json: Text, start: nat)
    requires start <= |json|
    ensures Drop(json, start) == json[start..]
  {
  }

  method ScanNames(json: Text) returns (fault: Option<Fault>)
    ensures fault == Scan(json, [])
  {
    hide Unquote, Skip;
    var objects: seq<Frame>, index := [], 0;
    while index < |json|
      invariant 0 <= index
      invariant Scan(json, []) == Scan(Drop(json, index), objects)
      decreases |json| - index
    {
      var c, start := json[index], index;
      ghost var rest, before := json[index..], objects;
      assert rest[1..] == json[start + 1..];
      if c == QUOTE {
        index := SkipString(json, start + 1);
        if KeyExpected(objects) {
          var top := objects[|objects| - 1];
          var key := Unquote(Take(json[start + 1..], index - start));
          if key.Fail? || key.value in top.keys {
            assert Advance(rest, before) == Stop(InvalidJson);
            return Some(InvalidJson);
          }
          objects := Replace(objects, InObject(top.keys + {key.value}, false));
        }
      } else if c == LBRACE {
        objects := objects + [InObject({}, true)];
      } else if c == LBRACKET {
        objects := objects + [InArray];
      } else if c == RBRACE || c == RBRACKET {
        objects := if objects == [] then [] else objects[..|objects| - 1];
      } else if c == COMMA && objects != [] && objects[|objects| - 1].InObject? {
        objects := Replace(objects, objects[|objects| - 1].(nextKey := true));
      }
      assert Advance(rest, before) == Go(objects);
      if |objects| > MAX_DEPTH {
        return Some(BoundExceeded);
      }
      index := index + 1;
      assert Drop(rest, TokenLength(rest)) == Drop(json, index);
    }
    fault := None;
  }
}

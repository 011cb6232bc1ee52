/** Callback accounting of one managed turn: every observed call is claimed,
    answered, written and completed once, in that order. */
module Ledger {
  import opened Texts
  import opened Json
  import opened Canonical

  const MAX_ARGUMENTS := 256 * 1024
  const MAX_RESPONSE := 512 * 1024

  datatype Response = Response(success: bool, text: Text)

  datatype Call = Call(
    nativeName: Text, capabilityName: Text, arguments: Text,
    claimed: bool, response: Option<Response>, written: bool, completed: bool)

  datatype Config = Config(capabilityName: Text -> Option<Text>, maximumCalls: nat)

  /** How a native message names a call: its turn, tool and arguments. */
  datatype Identity = Identity(threadId: Text, turnId: Text, id: Text, tool: Text, namespaced: bool, arguments: Value)

  datatype Status = InProgress | CompletedStatus | FailedStatus | OtherStatus

  /** What a tool item says of its outcome; absent content is `Null`. */
  datatype Item = Item(status: Status, content: Value, success: Option<bool>, times: bool)

  datatype Op =
    | Bind(threadId: Text, turnId: Text)
    | ObserveStart(call: Identity, item: Item)
    | ObserveEnd(call: Identity, item: Item)
    | TakeCall(call: Identity)
    | Respond(id: Text, text: Text, success: bool)
    | MarkWritten(id: Text)
    | Finish

  datatype Reply = Done | Handed(id: Text, name: Text, input: Value) | Refused

  datatype State = State(calls: map<Text, Call>, threadId: Option<Text>, turnId: Option<Text>, closed: bool)

  // ------------------------------------------------------------ the checks

  predicate InScope(s: State, c: Identity) {
    !s.closed && s.threadId == Some(c.threadId) && s.turnId == Some(c.turnId)
  }

  /** Strings without unpaired surrogates, which is all canonical text asks of a parsed value. */
  predicate Encodable(v: Value) {
    match v
    case Str(t) => Paired(t)
    case Arr(items) => forall i :: 0 <= i < |items| ==> Encodable(items[i])
    case Obj(members) => forall i :: 0 <= i < |members| ==> Paired(members[i].name) && Encodable(members[i].value)
    case _ => true
  }

  predicate Named(g: Config, c: Identity) {
    && Identifier(c.id) && Identifier(c.tool) && g.capabilityName(c.tool).Some? && !c.namespaced
    && c.arguments.Obj? && WellFormed(c.arguments) && Encodable(c.arguments)
    && Utf8Len(CanonicalText(c.arguments)) <= MAX_ARGUMENTS
  }

  predicate SameCall(call: Call, c: Identity) {
    call.nativeName == c.tool && call.arguments == CanonicalText(c.arguments)
  }

  const TYPE_KEY: Text := [116, 121, 112, 101]
  const TEXT_KEY: Text := [116, 101, 120, 116]
  const INPUT_TEXT: Text := [105, 110, 112, 117, 116, 84, 101, 120, 116]

  /** The content items of a response. */
  function Content(r: Response): Value {
    Arr([Obj([Entry(TYPE_KEY, Str(INPUT_TEXT)), Entry(TEXT_KEY, Str(r.text))])])
  }

  predicate Reports(item: Item, r: Response) {
    && item.status == (if r.success then CompletedStatus else FailedStatus)
    && item.success == Some(r.success)
    && WellFormed(item.content) && Encodable(item.content) && Encodable(Content(r))
    && CanonicalText(item.content) == CanonicalText(Content(r))
  }

  /** The arguments handed out are parsed again from their canonical text. */
  function ReadBack(text: Text): Value {
    match Parse(text)
    case Got(v, _) => v
    case Fail => Null
  }

  datatype Did = Did(state: State, reply: Reply)

  function Do(g: Config, s: State, op: Op): Did {
    match op
    case Bind(threadId, turnId) =>
      if s.threadId.Some? || s.closed || !Identifier(threadId) then Did(s, Refused)
      else if !Identifier(turnId) then Did(s.(threadId := Some(threadId)), Refused)
      else Did(s.(threadId := Some(threadId), turnId := Some(turnId)), Done)
    case ObserveStart(c, item) =>
      if InScope(s, c) && Named(g, c) && item.times && c.id !in s.calls && |s.calls| < g.maximumCalls
        && item.status.InProgress? && item.content.Null? && item.success.None?
      then
        var call := Call(c.tool, g.capabilityName(c.tool).value, CanonicalText(c.arguments), false, None, false, false);
        Did(s.(calls := s.calls[c.id := call]), Done)
      else Did(s, Refused)
    case ObserveEnd(c, item) =>
      if InScope(s, c) && Named(g, c) && item.times && c.id in s.calls && s.calls[c.id].written &&
          !s.calls[c.id].completed
        && s.calls[c.id].response.Some? && SameCall(s.calls[c.id], c) && Reports(item, s.calls[c.id].response.value)
      then Did(s.(calls := s.calls[c.id := s.calls[c.id].(completed := true)]), Done)
      else Did(s, Refused)
    case TakeCall(c) =>
      if InScope(s, c) && Named(g, c) && c.id in s.calls && !s.calls[c.id].claimed && !s.calls[c.id].completed &&
          SameCall(s.calls[c.id], c)
      then Did(s.(calls := s.calls[c.id := s.calls[c.id].(claimed := true)]),
               Handed(c.id, s.calls[c.id].capabilityName, ReadBack(s.calls[c.id].arguments)))
      else Did(s, Refused)
    case Respond(id, text, success) =>
      if !s.closed && id in s.calls && s.calls[id].claimed && s.calls[id].response.None? && !s.calls[id].completed
        && Bounded(text, MAX_RESPONSE, true)
      then Did(s.(calls := s.calls[id := s.calls[id].(response := Some(Response(success, text)))]), Done)
      else Did(s, Refused)
    case MarkWritten(id) =>
      if !s.closed && id in s.calls && s.calls[id].response.Some? && !s.calls[id].written
      then Did(s.(calls := s.calls[id := s.calls[id].(written := true)]), Done)
      else Did(s, Refused)
    case Finish =>
      if !s.closed && forall id :: id in s.calls ==> s.calls[id].completed && s.calls[id].written
      then Did(s.(closed := true), Done)
      else Did(s, Refused)
  }

  // ------------------------------------------------------------- all runs

  /** What happened to a call, as the log of a run records it: with what it was
      announced, what was asked for and handed out, what it was answered with,
      and which item completed it. */
  datatype Move =
    | Started(id: Text, tool: Text, arguments: Value)
    | Claimed(id: Text, tool: Text, arguments: Value, name: Text, input: Value)
    | Answered(id: Text, success: bool, text: Text)
    | Written(id: Text)
    | Completed(id: Text, tool: Text, arguments: Value, item: Item)

  function MoveOf(op: Op, reply: Reply): Option<Move> {
    if reply.Refused? then None
    else
      match op
      case ObserveStart(c, _) => Some(Started(c.id, c.tool, c.arguments))
      case ObserveEnd(c, item) => Some(Completed(c.id, c.tool, c.arguments, item))
      case TakeCall(c) =>
        if reply.Handed? then Some(Claimed(c.id, c.tool, c.arguments, reply.name, reply.input)) else None
      case Respond(id, text, success) => Some(Answered(id, success, text))
      case MarkWritten(id) => Some(Written(id))
      case _ => None
  }

  /** Which of the five moves this is. */
  function Rank(m: Move): nat {
    match m
    case Started(_, _, _) => 0
    case Claimed(_, _, _, _, _) => 1
    case Answered(_, _, _) => 2
    case Written(_) => 3
    case Completed(_, _, _, _) => 4
  }

  datatype Trace = Trace(state: State, log: seq<Move>)

  const FRESH := Trace(State(map[], None, None, false), [])

  function Next(g: Config, t: Trace, op: Op): Trace {
    var did := Do(g, t.state, op);
    var move := MoveOf(op, did.reply);
    Trace(did.state, if move.Some? then t.log + [move.value] else t.log)
  }

  function Run(g: Config, t: Trace, ops: seq<Op>): Trace
    decreases |ops|
  {
    if ops == [] then t else Run(g, Next(g, t, ops[0]), ops[1..])
  }

  /** Whether the table says that the move has been made. */
  predicate Made(s: State, id: Text, rank: nat) {
    && id in s.calls
    && match rank
       case 0 => true
       case 1 => s.calls[id].claimed
       case 2 => s.calls[id].response.Some?
       case 3 => s.calls[id].written
       case _ => s.calls[id].completed
  }

  predicate Logged(log: seq<Move>, id: Text, rank: nat) {
    exists i :: 0 <= i < |log| && log[i].id == id && Rank(log[i]) == rank
  }

  /** A move follows the one before it in rank and is the first of its kind. */
  predicate InTurn(log: seq<Move>, i: nat)
    requires i < |log|
  {
    && (Rank(log[i]) > 0 ==> Logged(log[..i], log[i].id, Rank(log[i]) - 1))
    && !Logged(log[..i], log[i].id, Rank(log[i]))
  }

  /** What the table holds of a call is what its moves brought. */
  predicate Carried(g: Config, s: State, m: Move) {
    && m.id in s.calls
    && var call := s.calls[m.id];
       match m
       case Started(_, tool, arguments) =>
         && call.nativeName == tool && g.capabilityName(tool) == Some(call.capabilityName)
         && WellFormed(arguments) && call.arguments == CanonicalText(arguments)
       case Claimed(_, tool, arguments, name, input) =>
         && call.nativeName == tool && call.arguments == CanonicalText(arguments) && WellFormed(arguments)
         && name == call.capabilityName && input == ReadBack(call.arguments)
       case Answered(_, success, text) => call.response == Some(Response(success, text))
       case Written(_) => call.response.Some?
       case Completed(_, tool, arguments, item) =>
         && call.nativeName == tool && call.arguments == CanonicalText(arguments) && WellFormed(arguments)
         && call.response.Some? && Reports(item, call.response.value)
  }

  /** Nothing a call was started or answered with ever changes. */
  predicate Steady(s: State, next: State) {
    forall id :: id in s.calls ==>
      && id in next.calls && next.calls[id].nativeName == s.calls[id].nativeName
      && next.calls[id].capabilityName == s.calls[id].capabilityName
      && next.calls[id].arguments == s.calls[id].arguments
      && (s.calls[id].response.Some? ==> next.calls[id].response == s.calls[id].response)
  }

  ghost predicate Inv(g: Config, t: Trace) {
    && (forall id, rank: nat :: rank < 5 ==> (Made(t.state, id, rank) <==> Logged(t.log, id, rank)))
    && (forall id, rank: nat :: 0 < rank < 5 && Made(t.state, id, rank) ==> Made(t.state, id, rank - 1))
    && (forall i :: 0 <= i < |t.log| ==> InTurn(t.log, i))
    && (forall i :: 0 <= i < |t.log| ==> Carried(g, t.state, t.log[i]))
    && |t.state.calls| <= g.maximumCalls
    && (t.state.closed ==> forall id :: id in t.state.calls ==>
        t.state.calls[id].completed && t.state.calls[id].written)
  }

  lemma LogOne(log: seq<Move>, m: Move, id: Text, rank: nat)
    ensures Logged(log + [m], id, rank) <==> Logged(log, id, rank) || (m.id == id && Rank(m) == rank)
  {
    var longer := log + [m];
    assert forall i :: 0 <= i < |log| ==> longer[i] == log[i];
    assert longer[|log|] == m;
  }

  lemma UpdateSteady(s: State, id: Text, call: Call)
    requires id in s.calls ==>
               && call.nativeName == s.calls[id].nativeName && call.capabilityName == s.calls[id].capabilityName
               && call.arguments == s.calls[id].arguments
               && (s.calls[id].response.Some? ==> call.response == s.calls[id].response)
    ensures Steady(s, s.(calls := s.calls[id := call]))
  {
  }

  lemma Unmoved(s: State, t: State)
    requires t.calls == s.calls
    ensures Steady(s, t)
  {
  }

  lemma StepSteady(g: Config, s: State, op: Op)
    ensures Steady(s, Do(g, s, op).state)
  {
    hide Named, Encodable, CanonicalText, Reports, ReadBack, Identifier, Utf8Len, Bounded, Steady, SameCall;
    var t := Do(g, s, op).state;
    if t.calls == s.calls {
      Unmoved(s, t);
    } else {
      match op
      case ObserveStart(c, _) => UpdateSteady(s, c.id, t.calls[c.id]);
      case ObserveEnd(c, _) => UpdateSteady(s, c.id, t.calls[c.id]);
      case TakeCall(c) => UpdateSteady(s, c.id, t.calls[c.id]);
      case Respond(id, _, _) => UpdateSteady(s, id, t.calls[id]);
      case MarkWritten(id) => UpdateSteady(s, id, t.calls[id]);
      case _ =>
    }
  }

  lemma StepSize(g: Config, s: State, op: Op)
    ensures |Do(g, s, op).state.calls| <= (if |s.calls| < g.maximumCalls then g.maximumCalls else |s.calls|)
  {
    hide Named, Encodable, CanonicalText, Reports, ReadBack, Identifier, Utf8Len, Bounded, SameCall;
  }

  lemma CallsStay(g: Config, s: State, op: Op)
    ensures Steady(s, Do(g, s, op).state)
    ensures |Do(g, s, op).state.calls| <= (if |s.calls| < g.maximumCalls then g.maximumCalls else |s.calls|)
  {
    hide Do, Steady;
    StepSteady(g, s, op);
    StepSize(g, s, op);
  }

  lemma MadeAfter(g: Config, s: State, op: Op, id: Text, rank: nat)
    requires rank < 5
    ensures var did := Do(g, s, op);
            var move := MoveOf(op, did.reply);
            Made(did.state, id, rank) <==>
            Made(s, id, rank) || (move.Some? && move.value.id == id && Rank(move.value) == rank)
  {
    hide Named, Encodable, CanonicalText, Reports, ReadBack, Identifier, Utf8Len, Bounded;
  }

  lemma MoveFits(g: Config, s: State, op: Op)
    ensures var move := MoveOf(op, Do(g, s, op).reply);
            move.Some? ==>
              && !Made(s, move.value.id, Rank(move.value))
              && (Rank(move.value) > 0 ==> Made(s, move.value.id, Rank(move.value) - 1))
  {
    hide Named, Encodable, CanonicalText, Reports, ReadBack, Identifier, Utf8Len, Bounded;
  }

  /** A successful operation makes exactly the move it is for. */
  lemma MakesOne(g: Config, s: State, op: Op, id: Text, rank: nat)
    requires rank < 5
    ensures var did := Do(g, s, op);
            var move := MoveOf(op, did.reply);
            && (Made(did.state, id, rank) <==>
                  Made(s, id, rank) || (move.Some? && move.value.id == id && Rank(move.value) == rank))
            && (move.Some? ==> !Made(s, move.value.id, Rank(move.value))
                               && (Rank(move.value) > 0 ==> Made(s, move.value.id, Rank(move.value) - 1)))
            && Steady(s, did.state)
            && |did.state.calls| <= (if |s.calls| < g.maximumCalls then g.maximumCalls else |s.calls|)
  {
    hide Do, MoveOf, Made, Rank, Steady;
    MadeAfter(g, s, op, id, rank);
    MoveFits(g, s, op);
    CallsStay(g, s, op);
  }

  lemma CarriesValues(g: Config, s: State, op: Op)
    ensures var did := Do(g, s, op);
            var move := MoveOf(op, did.reply);
            && (move.Some? ==> Carried(g, did.state, move.value))
            && (did.state.closed ==> s.closed || forall id :: id in did.state.calls ==>
                did.state.calls[id].completed && did.state.calls[id].written)
            && (s.closed ==> did.state == s && did.reply.Refused?)
  {
    hide Encodable, CanonicalText, Reports, ReadBack, Identifier, Utf8Len, WellFormed, Bounded;
  }

  lemma NextKeeps(g: Config, t: Trace, op: Op)
    requires Inv(g, t)
    ensures Inv(g, Next(g, t, op))
  {
    hide Do, MoveOf, Made, Logged, Carried, Steady;
    var u := Next(g, t, op);
    var did := Do(g, t.state, op);
    var move := MoveOf(op, did.reply);
    forall id, rank: nat | rank < 5
      ensures Made(u.state, id, rank) <==> Logged(u.log, id, rank)
      ensures 0 < rank && Made(u.state, id, rank) ==> Made(u.state, id, rank - 1)
    {
      MakesOne(g, t.state, op, id, rank);
      if rank > 0 {
        MakesOne(g, t.state, op, id, rank - 1);
      }
      if move.Some? {
        LogOne(t.log, move.value, id, rank);
      }
    }
    MakesOne(g, t.state, op, [], 0);
    CarriesValues(g, t.state, op);
    LogKeeps(g, t.log, t.state, did.state, move);
  }

  lemma CarriedStays(g: Config, s: State, next: State, m: Move)
    requires Carried(g, s, m) && Steady(s, next)
    ensures Carried(g, next, m)
  {
    hide Reports, CanonicalText, WellFormed, ReadBack;
  }

  /** The log's own order and values survive one more move. */
  lemma LogKeeps(g: Config, log: seq<Move>, s: State, next: State, move: Option<Move>)
    requires forall i :: 0 <= i < |log| ==> InTurn(log, i) && Carried(g, s, log[i])
    requires Steady(s, next)
    requires move.Some? ==>
      && Carried(g, next, move.value)
      && (Rank(move.value) > 0 ==> Logged(log, move.value.id, Rank(move.value) - 1))
      && !Logged(log, move.value.id, Rank(move.value))
    ensures var longer := if move.Some? then log + [move.value] else log;
            forall i :: 0 <= i < |longer| ==> InTurn(longer, i) && Carried(g, next, longer[i])
  {
    hide Logged, Carried, Steady;
    var longer := if move.Some? then log + [move.value] else log;
    forall i | 0 <= i < |longer| ensures InTurn(longer, i) && Carried(g, next, longer[i]) {
      if i < |log| {
        assert longer[..i] == log[..i] && InTurn(log, i) && Carried(g, s, log[i]);
        CarriedStays(g, s, next, log[i]);
      } else {
        assert longer[..i] == log;
      }
    }
  }

  lemma {:induction false} RunKeeps(g: Config, t: Trace, ops: seq<Op>)
    requires Inv(g, t)
    ensures Inv(g, Run(g, t, ops))
    decreases |ops|
  {
    hide Inv, Next;
    if ops != [] {
      NextKeeps(g, t, ops[0]);
      RunKeeps(g, Next(g, t, ops[0]), ops[1..]);
    }
  }

  lemma FreshFine(g: Config)
    ensures Inv(g, FRESH)
  {
  }

  /** In every run a call makes each of its moves at most once, and each move
      only after the one before it. */
  lemma MovesInOrder(g: Config, ops: seq<Op>, i: nat, j: nat)
    requires i < |Run(g, FRESH, ops).log| && j < |Run(g, FRESH, ops).log|
    ensures var log := Run(g, FRESH, ops).log;
            && (log[i].id == log[j].id && Rank(log[i]) == Rank(log[j]) ==> i == j)
            && (Rank(log[i]) > 0 ==>
                  exists k :: 0 <= k < i && log[k].id == log[i].id && Rank(log[k]) == Rank(log[i]) - 1)
  {
    FreshFine(g);
    RunKeeps(g, FRESH, ops);
    var log := Run(g, FRESH, ops).log;
    assert InTurn(log, i) && InTurn(log, j);
    if i < j {
      assert log[..j][i] == log[i];
    } else if j < i {
      assert log[..i][j] == log[j];
    }
    if Rank(log[i]) > 0 {
      var k :| 0 <= k < i && log[..i][k].id == log[i].id && Rank(log[..i][k]) == Rank(log[i]) - 1;
      assert log[k] == log[..i][k];
    }
  }

  /** What the log says of the call at one of its moves. */
  lemma AtMove(g: Config, ops: seq<Op>, i: nat)
    requires i < |Run(g, FRESH, ops).log|
    ensures Carried(g, Run(g, FRESH, ops).state, Run(g, FRESH, ops).log[i])
  {
    hide Run, Carried;
    FreshFine(g);
    RunKeeps(g, FRESH, ops);
  }

  /** A claim asks for the tool and the arguments observed for the call, gets
      the capability that stands for the tool, and a value equal to the arguments. */
  lemma ClaimsWhatWasObserved(g: Config, ops: seq<Op>, i: nat, j: nat)
    requires i < |Run(g, FRESH, ops).log| && j < |Run(g, FRESH, ops).log|
    requires Run(g, FRESH, ops).log[i].Started? && Run(g, FRESH, ops).log[j].Claimed?
    requires Run(g, FRESH, ops).log[i].id == Run(g, FRESH, ops).log[j].id
    ensures var log := Run(g, FRESH, ops).log;
            && log[j].tool == log[i].tool && g.capabilityName(log[i].tool) == Some(log[j].name)
            && Denote(log[j].arguments) == Denote(log[i].arguments) && Denote(log[j].input) == Denote(log[i].arguments)
  {
    hide CanonicalText, Denote, Run, WellFormed;
    AtMove(g, ops, i);
    AtMove(g, ops, j);
    var log := Run(g, FRESH, ops).log;
    CanonicalRoundTrip(log[i].arguments);
    CanonicalTextDecidesEquality(log[i].arguments, log[j].arguments);
  }

  /** What a completed item must say of the response that was sent. */
  predicate ItemSays(item: Item, success: bool, text: Text) {
    && item.success == Some(success) && (if success then item.status.CompletedStatus? else item.status.FailedStatus?)
    && Denote(item.content)
       == MArr([MObj(map[Chars("type") := MStr(Chars("inputText")), Chars("text") := MStr(text)])])
  }

  /** The item that completes a call says what the call was answered with. */
  lemma CompletesWhatWasAnswered(g: Config, ops: seq<Op>, i: nat, j: nat)
    requires i < |Run(g, FRESH, ops).log| && j < |Run(g, FRESH, ops).log|
    requires Run(g, FRESH, ops).log[i].Answered? && Run(g, FRESH, ops).log[j].Completed?
    requires Run(g, FRESH, ops).log[i].id == Run(g, FRESH, ops).log[j].id
    ensures var log := Run(g, FRESH, ops).log; ItemSays(log[j].item, log[i].success, log[i].text)
  {
    hide CanonicalText, Run, WellFormed, Denote, ReadBack, Chars;
    AtMove(g, ops, i);
    AtMove(g, ops, j);
    var log := Run(g, FRESH, ops).log;
    var response := Response(log[i].success, log[i].text);
    ContentMeans(response);
    CanonicalTextDecidesEquality(log[j].item.content, Content(response));
  }

  lemma ContentMeans(r: Response)
    ensures WellFormed(Content(r))
    ensures Denote(Content(r))
         == MArr([MObj(map[Chars("type") := MStr(Chars("inputText")), Chars("text") := MStr(r.text)])])
  {
    hide Chars;
    KeysAre();
    var members := [Entry(TYPE_KEY, Str(INPUT_TEXT)), Entry(TEXT_KEY, Str(r.text))];
    assert TYPE_KEY[1] != TEXT_KEY[1];
    assert WellFormed(members[0].value) && WellFormed(members[1].value);
    assert WellFormed(Obj(members));
    MembersMean(members[0], members[1]);
    ItemMeans(Obj(members));
  }

  lemma ItemMeans(v: Value)
    ensures DenoteItems([v]) == [Denote(v)]
  {
    assert [v][1..] == [];
  }

  lemma MembersMean(a: Member, b: Member)
    ensures DenoteMembers([a, b]) == map[a.name := Denote(a.value)][b.name := Denote(b.value)]
  {
    assert [a, b][..1] == [a] && [a][..0] == [];
    assert DenoteMembers([a]) == map[][a.name := Denote(a.value)];
  }

  lemma KeysAre()
    ensures TYPE_KEY == Chars("type") && TEXT_KEY == Chars("text") && INPUT_TEXT == Chars("inputText")
  {
  }

  ghost function Count(s: State, rank: nat): nat {
    |set id | id in s.calls && Made(s, id, rank)|
  }

  /** The receipt counts never grow along the order of the moves. */
  lemma CountsDescend(g: Config, ops: seq<Op>, rank: nat)
    requires 0 < rank < 5
    ensures var s := Run(g, FRESH, ops).state; Count(s, rank) <= Count(s, rank - 1) <= g.maximumCalls
  {
    hide Made;
    FreshFine(g);
    RunKeeps(g, FRESH, ops);
    var s := Run(g, FRESH, ops).state;
    SubsetSize((set id | id in s.calls && Made(s, id, rank)), (set id | id in s.calls && Made(s, id, rank - 1)));
    SubsetSize((set id | id in s.calls && Made(s, id, rank - 1)), s.calls.Keys);
  }

  lemma {:induction false} SubsetSize<T>(a: set<T>, b: set<T>)
    requires a <= b
    ensures |a| <= |b|
  {
    if a != {} {
      var x :| x in a;
      SubsetSize(a - {x}, b - {x});
    }
  }

  /** After `finish` all receipt counts agree and no operation changes anything. */
  lemma FinishIsFinal(g: Config, ops: seq<Op>, op: Op, rank: nat)
    requires Run(g, FRESH, ops).state.closed && rank < 5
    ensures var s := Run(g, FRESH, ops).state;
            Count(s, rank) == |s.calls| && Do(g, s, op) == Did(s, Refused)
  {
    FreshFine(g);
    RunKeeps(g, FRESH, ops);
    var s := Run(g, FRESH, ops).state;
    CarriesValues(g, s, op);
    AllMade(g, Run(g, FRESH, ops), rank);
    assert (set id | id in s.calls && Made(s, id, rank)) == s.calls.Keys;
  }

  lemma AllMade(g: Config, t: Trace, rank: nat)
    requires Inv(g, t) && t.state.closed && rank < 5
    ensures forall id :: id in t.state.calls ==> Made(t.state, id, rank)
  {
    hide Logged, InTurn;
    forall id | id in t.state.calls ensures Made(t.state, id, rank) {
      assert Made(t.state, id, 4) && Made(t.state, id, 3);
      assert Made(t.state, id, 2) && Made(t.state, id, 1);
    }
  }

  // ----------------------------------------------------- what is let through

  /** Room for the call, which is named as the ledger's turn and tools ask. */
  predicate Ready(g: Config, s: State, c: Identity) {
    !s.closed && s.threadId == Some(c.threadId) && s.turnId == Some(c.turnId) && Named(g, c)
  }

  /** A call as it is announced, made, answered and completed. */
  function Cycle(c: Identity, start: Item, text: Text, success: bool, end: Item): seq<Op> {
    [ObserveStart(c, start), TakeCall(c), Respond(c.id, text, success), MarkWritten(c.id), ObserveEnd(c, end)]
  }

  /** A new call that is announced, asked for, answered within the bound and
      reported as answered goes through every move, and nothing else changes. */
  lemma CycleGoesThrough(g: Config, s: State, c: Identity, start: Item, text: Text, success: bool, end: Item)
    requires Ready(g, s, c) && c.id !in s.calls && |s.calls| < g.maximumCalls
    requires start == Item(InProgress, Null, None, true) && Bounded(text, MAX_RESPONSE, true)
    requires end.times && end.success == Some(success) && Paired(text)
    requires end.status == (if success then CompletedStatus else FailedStatus)
    requires end.content == Content(Response(success, text))
    ensures g.capabilityName(c.tool).Some?
    ensures var t := Run(g, Trace(s, []), Cycle(c, start, text, success, end));
            && t.state == s.(calls := s.calls[c.id := Call(c.tool, g.capabilityName(c.tool).value,
                                                           CanonicalText(c.arguments), true,
                                                           Some(Response(success, text)), true, true)])
            && |t.log| == 5 && forall i :: 0 <= i < 5 ==> t.log[i].id == c.id && Rank(t.log[i]) == i
  {
    hide Named, Encodable, CanonicalText, Identifier, Utf8Len, Bounded, Run, Reports, Content, ReadBack, Do;
    var response := Response(success, text);
    StartGoesThrough(g, s, c, start);
    assert Reports(end, response) by {
      ContentReports(end, response);
    }
    var call := Call(c.tool, g.capabilityName(c.tool).value, CanonicalText(c.arguments), false, None, false, false);
    var t1 := Next(g, Trace(s, []), ObserveStart(c, start));
    var t2 := Next(g, t1, TakeCall(c));
    var t3 := Next(g, t2, Respond(c.id, text, success));
    var t4 := Next(g, t3, MarkWritten(c.id));
    var t5 := Next(g, t4, ObserveEnd(c, end));
    ClaimGoesThrough(g, t1.state, c);
    AnswerGoesThrough(g, t2.state, c.id, text, success);
    EndGoesThrough(g, t4.state, c, end, response);
    assert t5.state.calls == s.calls[c.id := t5.state.calls[c.id]];
    RunFive(g, Trace(s, []), ObserveStart(c, start), TakeCall(c), Respond(c.id, text, success), MarkWritten(c.id),
            ObserveEnd(c, end));
  }

  lemma ContentReports(item: Item, r: Response)
    requires item.success == Some(r.success) && item.content == Content(r) && Paired(r.text)
    requires item.status == (if r.success then CompletedStatus else FailedStatus)
    ensures Reports(item, r)
  {
    hide Content, CanonicalText, Denote, Encodable, WellFormed, Paired, Chars;
    ContentMeans(r);
    ContentEncodable(r);
  }

  lemma KeysPaired()
    ensures Paired(TYPE_KEY) && Paired(TEXT_KEY) && Paired(INPUT_TEXT)
  {
    hide Paired;
    PlainPaired(TYPE_KEY);
    PlainPaired(TEXT_KEY);
    PlainPaired(INPUT_TEXT);
  }

  lemma ContentEncodable(r: Response)
    requires Paired(r.text)
    ensures Encodable(Content(r))
  {
    hide Paired;
    KeysPaired();
    var members := [Entry(TYPE_KEY, Str(INPUT_TEXT)), Entry(TEXT_KEY, Str(r.text))];
    assert Encodable(members[0].value) && Encodable(members[1].value);
    assert Encodable(Obj(members));
  }

  lemma StartGoesThrough(g: Config, s: State, c: Identity, start: Item)
    requires Ready(g, s, c) && c.id !in s.calls && |s.calls| < g.maximumCalls
    requires start == Item(InProgress, Null, None, true)
    ensures g.capabilityName(c.tool).Some?
    ensures var call := Call(c.tool, g.capabilityName(c.tool).value, CanonicalText(c.arguments), false, None, false,
                             false);
            Do(g, s, ObserveStart(c, start)) == Did(s.(calls := s.calls[c.id := call]), Done)
  {
    hide CanonicalText, Identifier, Encodable, WellFormed, Utf8Len;
  }

  lemma ClaimGoesThrough(g: Config, s: State, c: Identity)
    requires Ready(g, s, c) && c.id in s.calls && !s.calls[c.id].claimed && !s.calls[c.id].completed
    requires s.calls[c.id].nativeName == c.tool && s.calls[c.id].arguments == CanonicalText(c.arguments)
    ensures Do(g, s, TakeCall(c)) == Did(s.(calls := s.calls[c.id := s.calls[c.id].(claimed := true)]),
                                         Handed(c.id, s.calls[c.id].capabilityName, ReadBack(s.calls[c.id].arguments)))
  {
    hide CanonicalText, Named, ReadBack;
  }

  lemma AnswerGoesThrough(g: Config, s: State, id: Text, text: Text, success: bool)
    requires !s.closed && id in s.calls && s.calls[id].claimed && s.calls[id].response.None? && !s.calls[id].completed
    requires !s.calls[id].written && Bounded(text, MAX_RESPONSE, true)
    ensures var answered := s.(calls := s.calls[id := s.calls[id].(response := Some(Response(success, text)))]);
            && Do(g, s, Respond(id, text, success)) == Did(answered, Done)
            && Do(g, answered, MarkWritten(id))
               == Did(answered.(calls := answered.calls[id := answered.calls[id].(written := true)]), Done)
  {
    hide Bounded;
  }

  lemma EndGoesThrough(g: Config, s: State, c: Identity, end: Item, response: Response)
    requires Ready(g, s, c) && c.id in s.calls && s.calls[c.id].written && !s.calls[c.id].completed && end.times
    requires s.calls[c.id].nativeName == c.tool && s.calls[c.id].arguments == CanonicalText(c.arguments)
    requires s.calls[c.id].response == Some(response) && Reports(end, response)
    ensures Do(g, s, ObserveEnd(c, end)) == Did(s.(calls := s.calls[c.id := s.calls[c.id].(completed := true)]), Done)
  {
    hide CanonicalText, Named, Reports;
  }

  lemma RunFive(g: Config, t: Trace, a: Op, b: Op, c: Op, d: Op, e: Op)
    ensures Run(g, t, [a, b, c, d, e]) == Next(g, Next(g, Next(g, Next(g, Next(g, t, a), b), c), d), e)
  {
    hide Next;
    assert [a, b, c, d, e][1..] == [b, c, d, e] && [b, c, d, e][1..] == [c, d, e] && [c, d, e][1..] == [d, e];
    assert [d, e][1..] == [e] && [e][1..] == [];
    var u := Next(g, Next(g, Next(g, t, a), b), c);
    assert Run(g, u, [d, e]) == Run(g, Next(g, u, d), [e]);
    assert Run(g, Next(g, u, d), [e]) == Run(g, Next(g, Next(g, u, d), e), []);
    assert Run(g, t, [a, b, c, d, e]) == Run(g, Next(g, t, a), [b, c, d, e]);
    assert Run(g, Next(g, t, a), [b, c, d, e]) == Run(g, Next(g, Next(g, t, a), b), [c, d, e]);
  }

  /** The scope is bound once, by two identifiers. */
  lemma BindsOnce(g: Config, s: State, thread: Text, turn: Text)
    ensures var did := Do(g, s, Bind(thread, turn));
            && (did.reply == Done <==> s.threadId.None? && !s.closed && Identifier(thread) && Identifier(turn))
            && (did.reply == Done ==> did.state == s.(threadId := Some(thread), turnId := Some(turn)))
            && (did.reply != Done ==> did.reply.Refused? && did.state == s.(threadId := did.state.threadId))
  {
    hide Identifier;
  }

  /** Items and claims outside the ledger's turn, or about a tool that stands for
      nothing, are refused and change nothing. */
  lemma OutOfScopeRefused(g: Config, s: State, c: Identity, item: Item)
    requires s.closed || s.threadId != Some(c.threadId) || s.turnId != Some(c.turnId) ||
             g.capabilityName(c.tool).None? || c.namespaced
    ensures Do(g, s, ObserveStart(c, item)) == Did(s, Refused) && Do(g, s, ObserveEnd(c, item)) == Did(s, Refused)
    ensures Do(g, s, TakeCall(c)) == Did(s, Refused)
  {
    hide Identifier, CanonicalText, WellFormed, Encodable, Reports, SameCall;
  }

  // ------------------------------------------------------------- the class

  class CodexManagedCallLedger {
    const config: Config
    var calls: map<Text, Call>
    var threadId: Option<Text>
    var turnId: Option<Text>
    var closed: bool
    ghost var log: seq<Move>

    constructor (config: Config)
      ensures this.config == config && Valid() && Model() == FRESH.state && log == []
    {
      this.config := config;
      calls, threadId, turnId, closed, log := map[], None, None, false, [];
      new;
      FreshFine(config);
    }

    ghost function Model(): State
      reads this
    {
      State(calls, threadId, turnId, closed)
    }

    ghost function History(): Trace
      reads this
    {
      Trace(Model(), log)
    }

    ghost predicate Valid()
      reads this
    {
      Inv(config, History())
    }

    /** Notes the move a reply stands for. */
    ghost method Note(before: Trace, op: Op, reply: Reply)
      requires before.log == log && Did(Model(), reply) == Do(config, before.state, op) && Inv(config, before)
      modifies this`log
      ensures Valid() && History() == Next(config, before, op)
    {
      hide Inv, Do;
      NextKeeps(config, before, op);
      var move := MoveOf(op, reply);
      log := if move.Some? then log + [move.value] else log;
    }

    method TryBind(thread: Text, turn: Text) returns (reply: Reply)
      modifies this`calls, this`threadId, this`turnId, this`closed
      ensures Did(Model(), reply) == Do(config, old(Model()), Op.Bind(thread, turn))
    {
      if threadId.Some? || closed || !Identifier(thread) {
        return Refused;
      }
      threadId := Some(thread);
      if !Identifier(turn) {
        return Refused;
      }
      turnId := Some(turn);
      reply := Done;
    }

    method Bind(thread: Text, turn: Text) returns (reply: Reply)
      requires Valid()
      modifies this
      ensures Valid() && Did(Model(), reply) == Do(config, old(Model()), Op.Bind(thread, turn))
      ensures History() == Next(config, old(History()), Op.Bind(thread, turn))
    {
      hide Inv, Do;
      ghost var before := History();
      reply := TryBind(thread, turn);
      Note(before, Op.Bind(thread, turn), reply);
    }

    method TryObserve(c: Identity, item: Item, started: bool) returns (reply: Reply)
      modifies this`calls, this`threadId, this`turnId, this`closed
      ensures Did(Model(), reply) == Do(config, old(Model()), if started then ObserveStart(c, item)
          else ObserveEnd(c, item))
    {
      hide Named, CanonicalText, Reports;
      var scoped := !closed && threadId == Some(c.threadId) && turnId == Some(c.turnId);
      if !scoped || !Named(config, c) || !item.times {
        return Refused;
      }
      if started {
        if c.id in calls || |calls| >= config.maximumCalls || !item.status.InProgress? || !item.content.Null? ||
            item.success.Some? {
          return Refused;
        }
        NamedTool(c);
        calls := calls[c.id := Call(c.tool, config.capabilityName(c.tool).value, CanonicalText(c.arguments), false,
            None, false, false)];
      } else {
        if c.id !in calls {
          return Refused;
        }
        var call := calls[c.id];
        if !call.written || call.completed || call.response.None? || !SameCall(call, c) ||
            !Reports(item, call.response.value) {
          return Refused;
        }
        calls := calls[c.id := call.(completed := true)];
      }
      reply := Done;
    }

    method Observe(c: Identity, item: Item, started: bool) returns (reply: Reply)
      requires Valid()
      modifies this
      ensures Valid() && Did(Model(), reply) == Do(config, old(Model()), if started then ObserveStart(c, item)
          else ObserveEnd(c, item))
      ensures History() == Next(config, old(History()), if started then ObserveStart(c, item) else ObserveEnd(c, item))
    {
      hide Inv, Do;
      ghost var before := History();
      reply := TryObserve(c, item, started);
      Note(before, if started then ObserveStart(c, item) else ObserveEnd(c, item), reply);
    }

    lemma NamedTool(c: Identity)
      requires Named(config, c)
      ensures config.capabilityName(c.tool).Some?
    {
    }

    method TryClaim(c: Identity) returns (reply: Reply)
      modifies this`calls, this`threadId, this`turnId, this`closed
      ensures Did(Model(), reply) == Do(config, old(Model()), TakeCall(c))
    {
      hide Named, CanonicalText, ReadBack;
      var scoped := !closed && threadId == Some(c.threadId) && turnId == Some(c.turnId);
      if !scoped || !Named(config, c) || c.id !in calls {
        return Refused;
      }
      var call := calls[c.id];
      if call.claimed || call.completed || !SameCall(call, c) {
        return Refused;
      }
      calls := calls[c.id := call.(claimed := true)];
      reply := Handed(c.id, call.capabilityName, ReadBack(call.arguments));
    }

    method Claim(c: Identity) returns (reply: Reply)
      requires Valid()
      modifies this
      ensures Valid() && Did(Model(), reply) == Do(config, old(Model()), TakeCall(c))
      ensures History() == Next(config, old(History()), TakeCall(c))
    {
      hide Inv, Do;
      ghost var before := History();
      reply := TryClaim(c);
      Note(before, TakeCall(c), reply);
    }

    method TryRespond(id: Text, text: Text, success: bool) returns (reply: Reply)
      modifies this`calls, this`threadId, this`turnId, this`closed
      ensures Did(Model(), reply) == Do(config, old(Model()), Op.Respond(id, text, success))
    {
      hide Bounded;
      if closed || id !in calls || !calls[id].claimed || calls[id].response.Some? || calls[id].completed {
        return Refused;
      }
      if !Bounded(text, MAX_RESPONSE, true) {
        return Refused;
      }
      calls := calls[id := calls[id].(response := Some(Response(success, text)))];
      reply := Done;
    }

    method Respond(id: Text, text: Text, success: bool) returns (reply: Reply)
      requires Valid()
      modifies this
      ensures Valid() && Did(Model(), reply) == Do(config, old(Model()), Op.Respond(id, text, success))
      ensures History() == Next(config, old(History()), Op.Respond(id, text, success))
    {
      hide Inv, Do;
      ghost var before := History();
      reply := TryRespond(id, text, success);
      Note(before, Op.Respond(id, text, success), reply);
    }

    method TryMarkWritten(id: Text) returns (reply: Reply)
      modifies this`calls, this`threadId, this`turnId, this`closed
      ensures Did(Model(), reply) == Do(config, old(Model()), Op.MarkWritten(id))
    {
      if closed || id !in calls || calls[id].response.None? || calls[id].written {
        return Refused;
      }
      calls := calls[id := calls[id].(written := true)];
      reply := Done;
    }

    method MarkWritten(id: Text) returns (reply: Reply)
      requires Valid()
      modifies this
      ensures Valid() && Did(Model(), reply) == Do(config, old(Model()), Op.MarkWritten(id))
      ensures History() == Next(config, old(History()), Op.MarkWritten(id))
    {
      hide Inv, Do;
      ghost var before := History();
      reply := TryMarkWritten(id);
      Note(before, Op.MarkWritten(id), reply);
    }

    method TryFinish() returns (reply: Reply)
      modifies this`calls, this`threadId, this`turnId, this`closed
      ensures Did(Model(), reply) == Do(config, old(Model()), Op.Finish)
    {
      if closed || exists id :: id in calls && !(calls[id].completed && calls[id].written) {
        return Refused;
      }
      closed := true;
      reply := Done;
    }

    method Finish() returns (reply: Reply)
      requires Valid()
      modifies this
      ensures Valid() && Did(Model(), reply) == Do(config, old(Model()), Op.Finish)
      ensures History() == Next(config, old(History()), Op.Finish)
    {
      hide Inv, Do;
      ghost var before := History();
      reply := TryFinish();
      Note(before, Op.Finish, reply);
    }
  }
}

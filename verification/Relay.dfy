/** The loopback relay between a native client and the model: one request at a
    time, each answered by one tool call or by the final text. */
module Relay {
  import opened Texts
  import opened Canonical

  const MAX_INPUT := 256
  const MAX_ARGUMENTS := 512 * 1024
  const MAX_TEXT := 512 * 1024

  /** An item of a request's input; messages are compared by their meaning. */
  datatype Entry =
    | Message(content: Meaning, userPrompt: bool)
    | CallItem(callId: Text, name: Text, arguments: Text)
    | OutputItem(callId: Text, output: Text, itemId: Option<Text>, toolName: Option<Text>)
    | Malformed

  datatype WriteState = Unwritten | Writing | Written | WriteFailed

  datatype Stamp = Stamp(id: Option<Text>, name: Option<Text>)

  datatype Call = Call(
    id: Text, tool: Text, arguments: Meaning, raw: Text, claimed: bool, started: bool, completed: bool,
    output: Option<Text>, success: Option<bool>, write: WriteState, observed: bool, stamp: Option<Stamp>)

  /** How far the request in flight is. */
  datatype Stage = Quiet | Reading | Checking(input: seq<Entry>, index: nat) | Checked(input: seq<Entry>) | Upstream

  datatype Config = Config(maxRequests: nat, maxFinal: nat, offered: Text -> bool)

  /** A turn id that is refused leaves the thread bound, which is bound once. */
  datatype Binding = Unbound | ThreadOnly | Bound(threadId: Text, turnId: Text)

  /** `calls` is in issue order; `forwarded` and `claims` record what has been
      sent upstream and handed out. */
  datatype State = State(
    bound: Binding, requests: nat, active: nat, failed: bool, closed: bool,
    initial: Option<seq<Entry>>, calls: seq<Call>, responses: set<Text>,
    finalText: Option<Text>, finalObserved: bool, stage: Stage,
    forwarded: seq<seq<Entry>>, claims: seq<Text>)

  datatype Params = Params(threadId: Text, turnId: Text, callId: Text, tool: Text, namespaced: bool, arguments: Meaning)

  datatype Outcome =
    | Broken
    | ToolCall(responseId: Text, callId: Text, name: Text, raw: Text, arguments: Option<Meaning>, usage: bool)
    | FinalText(responseId: Text, text: Text, readable: bool, usage: bool)

  datatype Event =
    | Bind(threadId: Text, turnId: Text)
    | Request(admitted: bool)
    | Body(input: Option<seq<Entry>>)
    | Check
    | Forward(ok: bool)
    | Respond(outcome: Outcome)
    | Claim(params: Params)
    | Complete(id: Text, text: Text, success: bool)
    | WriteSettles(id: Text, ok: bool)
    | ObserveTool(params: Params, completed: bool, successful: bool, content: Text)
    | ObserveFinal(text: Text)
    | Close

  const START := State(Unbound, 0, 0, false, false, None, [], {}, None, false, Quiet, [], [])

  /** The relay's own form of an id. */
  predicate CheckedId(t: Text) {
    0 < |t| <= 160 && forall i :: 0 <= i < |t| ==> Letter(t[i]) || t[i] == 95 || t[i] == 46 || t[i] == 58 || t[i] == 45
  }

  // ---------------------------------------------------------- one event

  function Reject(s: State): State {
    s.(failed := true, stage := Quiet, active := if s.active > 0 then s.active - 1 else 0)
  }

  function Find(calls: seq<Call>, id: Text): (k: nat)
    ensures k <= |calls| && (k < |calls| ==> calls[k].id == id)
    ensures k == |calls| ==> forall j :: 0 <= j < |calls| ==> calls[j].id != id
  {
    if calls == [] || calls[0].id == id then 0 else 1 + Find(calls[1..], id)
  }

  /** A new request; a second one beside it, or one after the end, fails the relay. */
  function Open(g: Config, s: State, admitted: bool): State {
    if s.closed || s.failed || s.active > 0 then s.(failed := true)
    else
      var counted := s.(requests := s.requests + 1);
      if s.requests + 1 > g.maxRequests || s.finalText.Some? || !admitted then counted.(failed := true)
      else counted.(active := 1, stage := Reading)
  }

  predicate Initial(input: seq<Entry>) {
    && input != [] && (forall i :: 0 <= i < |input| ==> input[i].Message?)
    && input[|input| - 1].userPrompt
  }

  function ReadBody(s: State, input: seq<Entry>): State {
    if |input| > MAX_INPUT then Reject(s)
    else if s.initial.None? then
      if s.calls == [] && Initial(input) then s.(initial := Some(input), stage := Checked(input)) else Reject(s)
    else if s.initial.value <= input && |input| == |s.initial.value| + 2 * |s.calls| && s.calls != []
        then s.(stage := Checking(input, 0))
    else Reject(s)
  }

  /** The two history items of one call: as issued, and with the exact output handed back. */
  predicate HistoryAt(input: seq<Entry>, at: nat, call: Call) {
    && at + 1 < |input|
    && input[at] == CallItem(call.id, call.tool, call.raw)
    && input[at + 1].OutputItem? && input[at + 1].callId == call.id && call.output == Some(input[at + 1].output)
    && (input[at + 1].itemId.Some? ==> CheckedId(input[at + 1].itemId.value))
    && (input[at + 1].toolName.Some? ==> input[at + 1].toolName.value == call.tool)
  }

  function CheckCall(s: State, input: seq<Entry>, index: nat): State
    requires s.initial.Some?
  {
    if index >= |s.calls| then s.(stage := Checked(input))
    else
      var call, at := s.calls[index], |s.initial.value| + 2 * index;
      if s.failed || s.closed || !call.claimed || !call.write.Written? || !HistoryAt(input, at, call) then Reject(s)
      else
        var stamp := Stamp(input[at + 1].itemId, input[at + 1].toolName);
        if call.stamp.Some? && call.stamp.value != stamp then Reject(s)
        else s.(calls := s.calls[index := call.(stamp := Some(stamp), observed := true)],
            stage := Checking(input, index + 1))
  }

  /** The answer of the model: a call that is new, or the text that ends the turn. */
  function Receive(g: Config, s: State, outcome: Outcome): State {
    match outcome
    case Broken => Reject(s)
    case ToolCall(responseId, callId, name, raw, arguments, usage) =>
      if responseId in s.responses || !CheckedId(responseId) || !CheckedId(callId) || !g.offered(name) ||
          !Bounded(raw, MAX_ARGUMENTS, false)
        || Find(s.calls, callId) < |s.calls| || s.finalText.Some? || |s.calls| + 1 >= g.maxRequests || arguments.None?
      then Reject(s)
      else
        var call := Call(callId, name, arguments.value, raw, false, false, false, None, None, Unwritten, false, None);
        var added := s.(calls := s.calls + [call], responses := s.responses + {responseId});
        if usage then added.(stage := Quiet, active := 0) else Reject(added)
    case FinalText(responseId, text, readable, usage) =>
      if responseId in s.responses || !CheckedId(responseId) || s.finalText.Some? || !Bounded(text, g.maxFinal, false)
          then Reject(s)
      else
        var ended := s.(finalText := Some(text), responses := s.responses + {responseId});
        if readable && usage then ended.(stage := Quiet, active := 0) else Reject(ended)
  }

  predicate Scoped(s: State, p: Params) {
    s.bound == Bound(p.threadId, p.turnId)
  }

  predicate Claimable(s: State, p: Params) {
    && Scoped(s, p) && Find(s.calls, p.callId) < |s.calls|
    && var call := s.calls[Find(s.calls, p.callId)];
       !call.claimed && p.tool == call.tool && !p.namespaced && p.arguments == call.arguments
  }

  predicate Completable(s: State, id: Text, text: Text) {
    && Find(s.calls, id) < |s.calls| && Bounded(text, MAX_TEXT, true)
    && s.calls[Find(s.calls, id)].claimed && s.calls[Find(s.calls, id)].write.Unwritten?
  }

  predicate Observable(s: State, p: Params, completed: bool, successful: bool, content: Text) {
    && Scoped(s, p) && Find(s.calls, p.callId) < |s.calls|
    && var call := s.calls[Find(s.calls, p.callId)];
       && p.tool == call.tool && !p.namespaced && p.arguments == call.arguments
       && if completed
          then call.started && call.claimed && !call.completed && call.success == Some(successful) &&
              call.output == Some(content)
          else !call.started
  }

  function Update(s: State, k: nat, call: Call): State
    requires k < |s.calls|
  {
    s.(calls := s.calls[k := call])
  }

  function Step(g: Config, s: State, e: Event): State {
    match e
    case Bind(threadId, turnId) =>
      if !s.bound.Unbound? || !CheckedId(threadId) then s
      else s.(bound := if CheckedId(turnId) then Bound(threadId, turnId) else ThreadOnly)
    case Request(admitted) => Open(g, s, admitted)
    case Body(input) => if !s.stage.Reading? then s else if input.None? then Reject(s) else ReadBody(s, input.value)
    case Check => if s.stage.Checking? && s.initial.Some? then CheckCall(s, s.stage.input, s.stage.index) else s
    case Forward(ok) =>
      if !s.stage.Checked? then s
      else if ok && s.bound.Bound? && !s.failed && !s.closed
          then s.(stage := Upstream, forwarded := s.forwarded + [s.stage.input])
      else Reject(s)
    case Respond(outcome) => if s.stage.Upstream? then Receive(g, s, outcome) else s
    case Claim(p) =>
      if Claimable(s, p) && !s.failed && !s.closed then
        var k := Find(s.calls, p.callId);
        Update(s, k, s.calls[k].(claimed := true)).(claims := s.claims + [p.callId])
      else s
    case Complete(id, text, success) =>
      if Completable(s, id, text) then
        var k := Find(s.calls, id);
        Update(s, k, s.calls[k].(output := Some(text), success := Some(success), write := Writing))
      else s
    case WriteSettles(id, ok) =>
      var k := Find(s.calls, id);
      if k < |s.calls| && s.calls[k].write.Writing?
          then Update(s, k, s.calls[k].(write := if ok then Written else WriteFailed)) else s
    case ObserveTool(p, completed, successful, content) =>
      if Observable(s, p, completed, successful, content) then
        var k := Find(s.calls, p.callId);
        Update(s, k, if completed then s.calls[k].(completed := true) else s.calls[k].(started := true))
      else s
    case ObserveFinal(text) => if !s.finalObserved && s.finalText == Some(text) then s.(finalObserved := true) else s
    case Close => s.(closed := true)
  }

  function Run(g: Config, s: State, events: seq<Event>): State
    decreases |events|
  {
    if events == [] then s else Run(g, Step(g, s, events[0]), events[1..])
  }

  // ---------------------------------------------------------- invariant

  function Ends(s: State): nat {
    if s.finalText.Some? then 1 else 0
  }

  predicate InFlight(s: State) {
    !s.stage.Quiet?
  }

  /** A call's own flags: written only after claimed, read back only after written. */
  predicate CallInv(c: Call) {
    && (!c.write.Unwritten? ==> c.claimed && c.output.Some?)
    && (c.observed ==> c.write.Written?)
  }

  predicate AllObserved(calls: seq<Call>) {
    forall j :: 0 <= j < |calls| ==> calls[j].observed
  }

  /** The input is the initial one followed by one pair per call, in issue order. */
  predicate Carries(input: seq<Entry>, initial: seq<Entry>, calls: seq<Call>) {
    && |input| == |initial| + 2 * |calls| && initial <= input
    && forall j :: 0 <= j < |calls| ==> HistoryAt(input, |initial| + 2 * j, calls[j])
  }

  /** What the stage of the request in flight has established. */
  predicate StageInv(s: State) {
    match s.stage
    case Checking(input, index) =>
      && s.initial.Some? && index <= |s.calls| && |input| == |s.initial.value| + 2 * |s.calls| &&
          s.initial.value <= input
      && forall j :: 0 <= j < index ==> s.calls[j].observed && HistoryAt(input, |s.initial.value| + 2 * j, s.calls[j])
    case Checked(input) => s.initial.Some? && AllObserved(s.calls) && Carries(input, s.initial.value, s.calls)
    case Upstream => s.initial.Some? && AllObserved(s.calls)
    case _ => true
  }

  predicate CountInv(s: State) {
    && s.active == (if InFlight(s) then 1 else 0)
    && s.requests == |s.calls| + Ends(s) + s.active
    && |s.forwarded| == |s.calls| + Ends(s) + (if s.stage.Upstream? then 1 else 0)
    && (InFlight(s) ==> s.finalText.None?)
    && (s.finalText.Some? ==> AllObserved(s.calls))
    && (forall j :: 0 <= j < |s.calls| && j + 1 < |s.forwarded| ==> s.calls[j].observed)
    && (s.forwarded != [] ==> s.initial.Some?)
    && (s.calls != [] ==> s.initial.Some?)
    && (forall k :: 0 <= k < |s.forwarded| ==> k <= |s.calls| && Carries(s.forwarded[k], s.initial.value, s.calls[..k]))
  }

  predicate Known(calls: seq<Call>, id: Text) {
    exists j :: 0 <= j < |calls| && calls[j].id == id
  }

  predicate ClaimInv(s: State) {
    && (forall i, j :: 0 <= i < j < |s.calls| ==> s.calls[i].id != s.calls[j].id)
    && (forall i, j :: 0 <= i < j < |s.claims| ==> s.claims[i] != s.claims[j])
    && (forall j :: 0 <= j < |s.calls| ==> (s.calls[j].claimed <==> s.calls[j].id in s.claims))
    && (forall i :: 0 <= i < |s.claims| ==> Known(s.calls, s.claims[i]))
    && (forall j :: 0 <= j < |s.calls| ==> CallInv(s.calls[j]))
  }

  predicate Inv(s: State) {
    ClaimInv(s) && (!s.failed ==> StageInv(s) && CountInv(s))
  }

  // ---------------------------------------------- every event keeps it

  lemma KnownStays(calls: seq<Call>, k: nat, call: Call, id: Text)
    requires k < |calls| && call.id == calls[k].id && Known(calls, id)
    ensures Known(calls[k := call], id)
  {
    var j :| 0 <= j < |calls| && calls[j].id == id;
    assert calls[k := call][j].id == id;
  }

  /** An update that leaves a call's issue alone, and its output once read back. */
  predicate SameIssue(was: Call, call: Call) {
    && call.id == was.id && call.tool == was.tool && call.raw == was.raw
    && (was.observed ==> call.observed && call.output == was.output)
  }

  lemma UpdateClaims(s: State, k: nat, call: Call)
    requires ClaimInv(s) && k < |s.calls| && SameIssue(s.calls[k], call) && CallInv(call) &&
        call.claimed == s.calls[k].claimed
    ensures ClaimInv(Update(s, k, call))
  {
    var t := Update(s, k, call);
    forall i | 0 <= i < |t.claims| ensures Known(t.calls, t.claims[i]) {
      KnownStays(s.calls, k, call, t.claims[i]);
    }
  }

  lemma UpdateCarries(input: seq<Entry>, initial: seq<Entry>, calls: seq<Call>, k: nat, call: Call, n: nat)
    requires n <= |calls| && k < |calls| && SameIssue(calls[k], call) && (k < n ==> calls[k].observed)
    requires Carries(input, initial, calls[..n])
    ensures Carries(input, initial, calls[k := call][..n])
  {
    forall j | 0 <= j < n ensures HistoryAt(input, |initial| + 2 * j, calls[k := call][..n][j]) {
      assert HistoryAt(input, |initial| + 2 * j, calls[..n][j]);
    }
  }

  lemma UpdateCounts(s: State, k: nat, call: Call)
    requires StageInv(s) && CountInv(s) && k < |s.calls| && SameIssue(s.calls[k], call)
    ensures CountInv(Update(s, k, call))
    ensures StageInv(Update(s, k, call))
  {
    hide HistoryAt, Carries;
    var t := Update(s, k, call);
    forall n | 0 <= n < |t.forwarded| ensures n <= |t.calls| && Carries(t.forwarded[n], t.initial.value, t.calls[..n]) {
      assert Carries(s.forwarded[n], s.initial.value, s.calls[..n]);
      UpdateCarries(s.forwarded[n], s.initial.value, s.calls, k, call, n);
    }
    UpdateStage(s, k, call);
  }

  lemma UpdateStage(s: State, k: nat, call: Call)
    requires StageInv(s) && k < |s.calls| && SameIssue(s.calls[k], call)
    ensures StageInv(Update(s, k, call))
  {
    if s.stage.Checked? {
      assert s.calls[..|s.calls|] == s.calls;
      UpdateCarries(s.stage.input, s.initial.value, s.calls, k, call, |s.calls|);
      assert s.calls[k := call][..|s.calls|] == s.calls[k := call];
    }
  }

  lemma UpdateKeeps(s: State, k: nat, call: Call)
    requires Inv(s) && k < |s.calls| && SameIssue(s.calls[k], call) && CallInv(call) &&
        call.claimed == s.calls[k].claimed
    ensures Inv(Update(s, k, call))
  {
    hide ClaimInv, StageInv, CountInv;
    UpdateClaims(s, k, call);
    if !s.failed {
      UpdateCounts(s, k, call);
    }
  }

  lemma ClaimRecorded(s: State, k: nat)
    requires ClaimInv(s) && k < |s.calls| && !s.calls[k].claimed
    ensures ClaimInv(Update(s, k, s.calls[k].(claimed := true)).(claims := s.claims + [s.calls[k].id]))
  {
    var call := s.calls[k].(claimed := true);
    var t := Update(s, k, call).(claims := s.claims + [s.calls[k].id]);
    forall i | 0 <= i < |t.claims| ensures Known(t.calls, t.claims[i]) {
      assert t.calls[k].id == s.calls[k].id;
      if i < |s.claims| {
        KnownStays(s.calls, k, call, s.claims[i]);
      }
    }
  }

  lemma ClaimKeeps(s: State, k: nat)
    requires Inv(s) && k < |s.calls| && !s.calls[k].claimed
    ensures Inv(Update(s, k, s.calls[k].(claimed := true)).(claims := s.claims + [s.calls[k].id]))
  {
    hide ClaimInv;
    ClaimRecorded(s, k);
    if !s.failed {
      UpdateCounts(s, k, s.calls[k].(claimed := true));
    }
  }

  lemma RejectKeeps(s: State)
    requires ClaimInv(s)
    ensures Inv(Reject(s))
  {
  }

  lemma OpenKeeps(g: Config, s: State, admitted: bool)
    requires Inv(s)
    ensures Inv(Open(g, s, admitted))
  {
    hide HistoryAt, Carries, CallInv, Known;
  }

  lemma BodyKeeps(s: State, input: seq<Entry>)
    requires Inv(s) && s.stage.Reading?
    ensures Inv(ReadBody(s, input))
  {
    hide HistoryAt, CallInv, Known;
    RejectKeeps(s);
  }

  lemma CheckKeeps(s: State, input: seq<Entry>, index: nat)
    requires Inv(s) && s.stage == Checking(input, index) && s.initial.Some?
    ensures Inv(CheckCall(s, input, index))
  {
    hide ClaimInv, CountInv;
    RejectKeeps(s);
    var t := CheckCall(s, input, index);
    if index >= |s.calls| {
      CheckedStage(s, input, index);
    } else if t.stage.Checking? {
      var at := |s.initial.value| + 2 * index;
      var call := s.calls[index].(stamp := Some(Stamp(input[at + 1].itemId, input[at + 1].toolName)), observed := true);
      ClaimCall(s, index);
      UpdateKeeps(s, index, call);
      NextIndex(Update(s, index, call), input, index);
    }
  }

  lemma ClaimCall(s: State, k: nat)
    requires ClaimInv(s) && k < |s.calls|
    ensures CallInv(s.calls[k])
  {
  }

  lemma CheckedStage(s: State, input: seq<Entry>, index: nat)
    requires Inv(s) && s.stage == Checking(input, index) && index >= |s.calls| && s.initial.Some?
    ensures Inv(s.(stage := Checked(input)))
  {
    hide HistoryAt, CallInv, Known;
  }

  lemma NextIndex(s: State, input: seq<Entry>, index: nat)
    requires Inv(s) && s.stage == Checking(input, index) && s.initial.Some? && index < |s.calls|
    requires s.calls[index].observed && HistoryAt(input, |s.initial.value| + 2 * index, s.calls[index])
    ensures Inv(s.(stage := Checking(input, index + 1)))
  {
    hide HistoryAt, CallInv, Known, Carries;
  }

  lemma ForwardKeeps(s: State)
    requires Inv(s) && s.stage.Checked? && !s.failed
    ensures Inv(s.(stage := Upstream, forwarded := s.forwarded + [s.stage.input]))
  {
    hide HistoryAt, CallInv, Known, Carries;
    assert s.calls[..|s.calls|] == s.calls;
  }

  lemma Fresh(calls: seq<Call>, id: Text)
    requires Find(calls, id) == |calls|
    ensures !Known(calls, id)
  {
  }

  lemma AddedClaims(s: State, call: Call)
    requires ClaimInv(s) && Find(s.calls, call.id) == |s.calls| && !call.claimed && CallInv(call)
    ensures ClaimInv(s.(calls := s.calls + [call]))
  {
    hide CallInv;
    Fresh(s.calls, call.id);
    var t := s.(calls := s.calls + [call]);
    forall i | 0 <= i < |s.claims| ensures Known(t.calls, s.claims[i]) && s.claims[i] != call.id {
      var j :| 0 <= j < |s.calls| && s.calls[j].id == s.claims[i];
      assert t.calls[j] == s.calls[j];
    }
  }

  lemma AddedCounts(s: State, call: Call)
    requires StageInv(s) && CountInv(s) && s.stage.Upstream?
    ensures CountInv(s.(calls := s.calls + [call], stage := Quiet, active := 0))
  {
    hide HistoryAt, Carries;
    var t := s.(calls := s.calls + [call], stage := Quiet, active := 0);
    assert forall k :: 0 <= k <= |s.calls| ==> t.calls[..k] == s.calls[..k];
  }

  lemma ReceiveKeeps(g: Config, s: State, outcome: Outcome)
    requires Inv(s) && s.stage.Upstream?
    ensures Inv(Receive(g, s, outcome))
  {
    hide ClaimInv, CountInv, Bounded, CheckedId;
    RejectKeeps(s);
    match outcome
    case Broken =>
    case ToolCall(responseId, callId, name, raw, arguments, usage) =>
      if Find(s.calls, callId) == |s.calls| && arguments.Some? {
        var call := Call(callId, name, arguments.value, raw, false, false, false, None, None, Unwritten, false, None);
        var added := s.(calls := s.calls + [call], responses := s.responses + {responseId});
        AddedClaims(s, call);
        SameClaims(s.(calls := s.calls + [call]), added);
        RejectKeeps(added);
        SameClaims(added, added.(stage := Quiet, active := 0));
        if !s.failed {
          AddedCounts(s, call);
          SameCounts(s.(calls := s.calls + [call], stage := Quiet, active := 0), added.(stage := Quiet, active := 0));
        }
      }
    case FinalText(responseId, text, readable, usage) =>
      var ended := s.(finalText := Some(text), responses := s.responses + {responseId});
      SameClaims(s, ended);
      RejectKeeps(ended);
      SameClaims(s, ended.(stage := Quiet, active := 0));
      if !s.failed && s.finalText.None? {
        EndedCounts(s, ended.(stage := Quiet, active := 0));
      }
  }

  lemma SameClaims(s: State, t: State)
    requires ClaimInv(s) && t.calls == s.calls && t.claims == s.claims
    ensures ClaimInv(t)
  {
  }

  lemma SameCounts(s: State, t: State)
    requires CountInv(s) && t == s.(responses := t.responses)
    ensures CountInv(t)
  {
    hide HistoryAt, Carries;
  }

  lemma EndedCounts(s: State, t: State)
    requires StageInv(s) && CountInv(s) && s.stage.Upstream? && t.finalText.Some?
    requires t == s.(finalText := t.finalText, responses := t.responses, stage := Quiet, active := 0)
    ensures CountInv(t)
  {
    hide HistoryAt, Carries;
  }

  lemma QuietKeeps(s: State, t: State)
    requires Inv(s) && t == s.(bound := t.bound, finalObserved := t.finalObserved, closed := t.closed)
    ensures Inv(t)
  {
    hide HistoryAt, Carries, CallInv, Known;
  }

  lemma RequestKeeps(g: Config, s: State, e: Event)
    requires Inv(s) && (e.Request? || e.Body? || e.Check? || e.Forward? || e.Respond?)
    ensures Inv(Step(g, s, e))
  {
    hide StageInv, CountInv, ClaimInv, Open, ReadBody, CheckCall, Receive, Reject;
    RejectKeeps(s);
    match e
    case Request(admitted) => OpenKeeps(g, s, admitted);
    case Body(input) =>
      if s.stage.Reading? && input.Some? {
        BodyKeeps(s, input.value);
      }
    case Check =>
      if s.stage.Checking? && s.initial.Some? {
        CheckKeeps(s, s.stage.input, s.stage.index);
      }
    case Forward(ok) =>
      if s.stage.Checked? && !s.failed {
        ForwardKeeps(s);
      }
    case Respond(outcome) =>
      if s.stage.Upstream? {
        ReceiveKeeps(g, s, outcome);
      }
  }

  lemma CallKeeps(g: Config, s: State, e: Event)
    requires Inv(s) && (e.Claim? || e.Complete? || e.WriteSettles? || e.ObserveTool?)
    ensures Inv(Step(g, s, e))
  {
    hide StageInv, CountInv, ClaimInv, Bounded;
    match e
    case Claim(p) =>
      if Claimable(s, p) {
        ClaimKeeps(s, Find(s.calls, p.callId));
      }
    case Complete(id, text, success) =>
      var k := Find(s.calls, id);
      if k < |s.calls| && Completable(s, id, text) {
        ClaimCall(s, k);
        UpdateKeeps(s, k, s.calls[k].(output := Some(text), success := Some(success), write := Writing));
      }
    case WriteSettles(id, ok) =>
      var k := Find(s.calls, id);
      if k < |s.calls| && s.calls[k].write.Writing? {
        ClaimCall(s, k);
        UpdateKeeps(s, k, s.calls[k].(write := if ok then Written else WriteFailed));
      }
    case ObserveTool(p, completed, successful, content) =>
      var k := Find(s.calls, p.callId);
      if k < |s.calls| {
        ClaimCall(s, k);
        UpdateKeeps(s, k, if completed then s.calls[k].(completed := true) else s.calls[k].(started := true));
      }
  }

  lemma StepKeeps(g: Config, s: State, e: Event)
    requires Inv(s)
    ensures Inv(Step(g, s, e))
  {
    hide StageInv, CountInv, ClaimInv, Open, ReadBody, CheckCall, Receive, Reject, Claimable, Completable, Observable,
        Find;
    if e.Request? || e.Body? || e.Check? || e.Forward? || e.Respond? {
      RequestKeeps(g, s, e);
    } else if e.Claim? || e.Complete? || e.WriteSettles? || e.ObserveTool? {
      CallKeeps(g, s, e);
    } else {
      QuietKeeps(s, Step(g, s, e));
    }
  }

  lemma {:induction false} RunKeeps(g: Config, s: State, events: seq<Event>)
    requires Inv(s)
    ensures Inv(Run(g, s, events))
    decreases |events|
  {
    hide Inv, Step;
    if events != [] {
      StepKeeps(g, s, events[0]);
      RunKeeps(g, Step(g, s, events[0]), events[1..]);
    }
  }

  lemma StartFine()
    ensures Inv(START)
  {
  }

  // --------------------------------------------------------- main results

  /** Without a failure and with no request in flight, requests are the calls
      issued, plus one once the final text exists. */
  lemma RequestsAreCalls(g: Config, events: seq<Event>)
    requires !Run(g, START, events).failed && Run(g, START, events).active == 0
    ensures var s := Run(g, START, events); s.requests == |s.calls| + Ends(s)
  {
    StartFine();
    RunKeeps(g, START, events);
  }

  /** The k-th request sent on carries the initial input and then, for each of
      the first k calls in issue order, the call and the output handed back. */
  lemma FollowUpsCarryHistory(g: Config, events: seq<Event>, k: nat)
    requires !Run(g, START, events).failed && k < |Run(g, START, events).forwarded|
    ensures var s := Run(g, START, events);
            k <= |s.calls| && s.initial.Some? && Carries(s.forwarded[k], s.initial.value, s.calls[..k])
  {
    hide Carries, HistoryAt;
    StartFine();
    RunKeeps(g, START, events);
  }

  /** Once the final text exists every call has been claimed exactly once, its
      output written and read back. */
  lemma FinalMeansReadBack(g: Config, events: seq<Event>, j: nat)
    requires !Run(g, START, events).failed && Run(g, START, events).finalText.Some?
    requires j < |Run(g, START, events).calls|
    ensures var s := Run(g, START, events);
            var c := s.calls[j];
            && c.claimed && c.write.Written? && c.output.Some? && c.observed
            && exists i ::
                 && 0 <= i < |s.claims| && s.claims[i] == c.id
                 && forall k :: 0 <= k < |s.claims| && s.claims[k] == c.id ==> k == i
  {
    StartFine();
    RunKeeps(g, START, events);
    var s := Run(g, START, events);
    assert CallInv(s.calls[j]);
    var i :| 0 <= i < |s.claims| && s.claims[i] == s.calls[j].id;
  }

  /** The handling of a body, of a check and of a response leaves a failure alone. */
  lemma HandlingStays(g: Config, s: State, input: seq<Entry>, index: nat, outcome: Outcome)
    requires s.failed
    ensures var t := ReadBody(s, input); t.failed && t.requests == s.requests && t.forwarded == s.forwarded
    ensures s.initial.Some? ==>
              var t := CheckCall(s, input, index); t.failed && t.requests == s.requests && t.forwarded == s.forwarded
    ensures var t := Receive(g, s, outcome); t.failed && t.requests == s.requests && t.forwarded == s.forwarded
  {
    hide Find, Bounded, CheckedId, HistoryAt, Initial;
  }

  /** A failure is never forgotten, and a failed relay opens no request. */
  lemma FailureStays(g: Config, s: State, e: Event)
    requires s.failed
    ensures Step(g, s, e).failed && Step(g, s, e).requests == s.requests && Step(g, s, e).forwarded == s.forwarded
  {
    hide Claimable, Completable, Observable, Find, CheckedId, ReadBody, CheckCall, Receive;
    match e
    case Body(input) =>
      if input.Some? {
        HandlingStays(g, s, input.value, 0, Broken);
      }
    case Check =>
      if s.stage.Checking? {
        HandlingStays(g, s, s.stage.input, s.stage.index, Broken);
      }
    case Respond(outcome) => HandlingStays(g, s, [], 0, outcome);
    case _ =>
  }
}

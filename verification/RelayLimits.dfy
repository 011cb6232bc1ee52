/** What makes the relay fail, what it never exceeds, and that the history it
    sends on only ever grows. */
module RelayLimits {
  import opened Texts
  import opened Canonical
  import opened Relay
  import opened RelayHistory

  // ------------------------------------------------------ the history grows

  /** The two history items of a call, with the id and name it was first handed back under. */
  predicate PairOf(c: Call, issued: Entry, answered: Entry) {
    && c.stamp.Some? && c.output.Some? && issued == CallItem(c.id, c.tool, c.raw)
    && answered == OutputItem(c.id, c.output.value, c.stamp.value.id, c.stamp.value.name)
  }

  predicate PairsAt(input: seq<Entry>, from: nat, calls: seq<Call>) {
    && from + 2 * |calls| <= |input|
    && forall j :: 0 <= j < |calls| ==> PairOf(calls[j], input[from + 2 * j], input[from + 2 * j + 1])
  }

  predicate StampsFit(calls: seq<Call>) {
    forall j :: 0 <= j < |calls| ==> (calls[j].stamp.Some? <==> calls[j].observed)
  }

  predicate StagePairs(s: State) {
    match s.stage
    case Checking(input, index) =>
      s.initial.Some? && index <= |s.calls| && PairsAt(input, |s.initial.value|, s.calls[..index])
    case Checked(input) => s.initial.Some? && PairsAt(input, |s.initial.value|, s.calls)
    case _ => true
  }

  predicate SentPair(s: State, k: nat)
    requires k < |s.forwarded|
  {
    s.initial.Some? && k <= |s.calls| && PairsAt(s.forwarded[k], |s.initial.value|, s.calls[..k])
  }

  predicate SentPairs(s: State) {
    forall k :: 0 <= k < |s.forwarded| ==> SentPair(s, k)
  }

  predicate PairInv(s: State) {
    StampsFit(s.calls) && (!s.failed ==> StagePairs(s) && SentPairs(s))
  }

  /** What no update of a call takes back. */
  predicate KeepsPair(was: Call, call: Call) {
    && call.id == was.id && call.tool == was.tool && call.raw == was.raw
    && (call.stamp.Some? <==> call.observed) && (was.observed ==> call.observed)
    && (was.stamp.Some? ==> call.stamp == was.stamp && call.output == was.output)
  }

  lemma PairsKept(input: seq<Entry>, from: nat, calls: seq<Call>, n: nat, k: nat, call: Call)
    requires n <= |calls| && k < |calls| && KeepsPair(calls[k], call) && PairsAt(input, from, calls[..n])
    ensures PairsAt(input, from, calls[k := call][..n])
  {
    forall j | 0 <= j < n ensures PairOf(calls[k := call][..n][j], input[from + 2 * j], input[from + 2 * j + 1]) {
      assert PairOf(calls[..n][j], input[from + 2 * j], input[from + 2 * j + 1]);
    }
  }

  lemma UpdatePairs(s: State, k: nat, call: Call)
    requires PairInv(s) && k < |s.calls| && KeepsPair(s.calls[k], call)
    ensures PairInv(Update(s, k, call))
  {
    hide PairsAt;
    var t := Update(s, k, call);
    if !s.failed {
      forall n | 0 <= n < |t.forwarded| ensures SentPair(t, n) {
        assert SentPair(s, n);
        PairsKept(s.forwarded[n], |s.initial.value|, s.calls, n, k, call);
      }
      match s.stage
      case Checking(input, index) => PairsKept(input, |s.initial.value|, s.calls, index, k, call);
      case Checked(input) =>
        assert s.calls[..|s.calls|] == s.calls && t.calls[..|t.calls|] == t.calls;
        PairsKept(input, |s.initial.value|, s.calls, |s.calls|, k, call);
      case _ =>
    }
  }

  lemma RejectPairs(s: State)
    requires StampsFit(s.calls)
    ensures PairInv(Reject(s))
  {
  }

  lemma BodyPairs(s: State, input: seq<Entry>)
    requires PairInv(s)
    ensures PairInv(ReadBody(s, input))
  {
    hide PairOf;
    RejectPairs(s);
    if !s.failed {
      SentAfterFirst(s);
      if !ReadBody(s, input).failed {
        NewStage(s, ReadBody(s, input));
      }
    }
  }

  lemma SentAfterFirst(s: State)
    requires PairInv(s) && !s.failed
    ensures s.forwarded != [] ==> s.initial.Some?
  {
    if s.forwarded != [] {
      assert SentPair(s, 0);
    }
  }

  /** Another stage of the same request, with what has been sent as before. */
  lemma NewStage(s: State, t: State)
    requires PairInv(s) && !s.failed && t == s.(stage := t.stage, initial := t.initial) && StagePairs(t)
    requires t.initial == s.initial || s.forwarded == []
    ensures PairInv(t)
  {
    hide PairsAt;
    forall k | 0 <= k < |t.forwarded| ensures SentPair(t, k) {
      assert SentPair(s, k);
    }
  }

  lemma CheckPairs(s: State, input: seq<Entry>, index: nat)
    requires Inv(s) && PairInv(s) && s.stage == Checking(input, index) && s.initial.Some?
    ensures PairInv(CheckCall(s, input, index))
  {
    hide Inv, PairsAt, CallInv;
    RejectPairs(s);
    var t := CheckCall(s, input, index);
    if index >= |s.calls| {
      if !s.failed {
        assert s.calls[..index] == s.calls;
        NewStage(s, t);
      }
    } else if t.stage.Checking? {
      var at := |s.initial.value| + 2 * index;
      var stamp := Stamp(input[at + 1].itemId, input[at + 1].toolName);
      var call := s.calls[index].(stamp := Some(stamp), observed := true);
      UpdatePairs(s, index, call);
      NextPair(input, |s.initial.value|, s.calls[index := call], index);
      NewStage(Update(s, index, call), t);
    }
  }

  lemma NextPair(input: seq<Entry>, from: nat, calls: seq<Call>, index: nat)
    requires index < |calls| && PairsAt(input, from, calls[..index]) && from + 2 * index + 2 <= |input|
    requires PairOf(calls[index], input[from + 2 * index], input[from + 2 * index + 1])
    ensures PairsAt(input, from, calls[..index + 1])
  {
    forall j | 0 <= j < index + 1
      ensures PairOf(calls[..index + 1][j], input[from + 2 * j], input[from + 2 * j + 1])
    {
      if j < index {
        assert PairOf(calls[..index][j], input[from + 2 * j], input[from + 2 * j + 1]);
      }
    }
  }

  lemma ForwardPairs(s: State)
    requires Inv(s) && PairInv(s) && s.stage.Checked? && !s.failed
    ensures PairInv(s.(stage := Upstream, forwarded := s.forwarded + [s.stage.input]))
  {
    hide PairsAt, ClaimInv, HistoryAt, Carries;
    var t := s.(stage := Upstream, forwarded := s.forwarded + [s.stage.input]);
    assert s.calls[..|s.calls|] == s.calls;
    forall k | 0 <= k < |t.forwarded| ensures SentPair(t, k) {
      assert k < |s.forwarded| ==> SentPair(s, k);
    }
  }

  lemma AddPairs(s: State, call: Call)
    requires Inv(s) && PairInv(s) && !s.failed && s.stage.Upstream? && call.stamp.None? && !call.observed
    ensures PairInv(s.(calls := s.calls + [call], stage := Quiet, active := 0))
  {
    hide PairsAt, ClaimInv, HistoryAt, Carries;
    var t := s.(calls := s.calls + [call], stage := Quiet, active := 0);
    forall k | 0 <= k < |t.forwarded| ensures SentPair(t, k) {
      assert SentPair(s, k);
      assert t.calls[..k] == s.calls[..k];
    }
  }

  lemma SamePairs(s: State, t: State)
    requires PairInv(s) && t.calls == s.calls && t.initial == s.initial && t.forwarded == s.forwarded
    requires t.failed || (!s.failed && (t.stage == s.stage || t.stage.Quiet? || t.stage.Reading?))
    ensures PairInv(t)
  {
    hide PairsAt;
    assert StampsFit(t.calls);
    if !t.failed {
      forall k | 0 <= k < |t.forwarded| ensures SentPair(t, k) {
        assert SentPair(s, k);
      }
    }
  }

  lemma ReceivePairs(g: Config, s: State, outcome: Outcome)
    requires Inv(s) && PairInv(s) && s.stage.Upstream?
    ensures PairInv(Receive(g, s, outcome))
  {
    hide Inv, PairInv, Bounded, CheckedId, Find, StampsFit;
    assert StampsFit(s.calls) by {
      StampsOf(s);
    }
    RejectPairs(s);
    match outcome
    case Broken =>
    case ToolCall(responseId, callId, name, raw, arguments, usage) =>
      if arguments.Some? {
        var call := Call(callId, name, arguments.value, raw, false, false, false, None, None, Unwritten, false, None);
        var added := s.(calls := s.calls + [call], responses := s.responses + {responseId});
        StampsMore(s.calls, call);
        RejectPairs(added);
        var quiet := s.(calls := s.calls + [call], stage := Quiet, active := 0);
        if s.failed {
          FailedPairs(added.(stage := Quiet, active := 0));
        } else {
          AddPairs(s, call);
          SamePairs(quiet, added.(stage := Quiet, active := 0));
        }
      }
    case FinalText(responseId, text, readable, usage) =>
      var ended := s.(finalText := Some(text), responses := s.responses + {responseId});
      RejectPairs(ended);
      if s.failed {
        FailedPairs(ended.(stage := Quiet, active := 0));
      } else {
        SamePairs(s, ended.(stage := Quiet, active := 0));
      }
  }

  lemma StampsOf(s: State)
    requires PairInv(s)
    ensures StampsFit(s.calls)
  {
  }

  lemma FailedPairs(s: State)
    requires StampsFit(s.calls) && s.failed
    ensures PairInv(s)
  {
  }

  lemma StampsMore(calls: seq<Call>, call: Call)
    requires StampsFit(calls) && call.stamp.None? && !call.observed
    ensures StampsFit(calls + [call])
  {
  }

  lemma CallSound(s: State, k: nat)
    requires Inv(s) && PairInv(s) && k < |s.calls|
    ensures CallInv(s.calls[k]) && (s.calls[k].stamp.Some? <==> s.calls[k].observed)
  {
  }

  lemma CallPairs(g: Config, s: State, e: Event)
    requires Inv(s) && PairInv(s) && (e.Claim? || e.Complete? || e.WriteSettles? || e.ObserveTool?)
    ensures PairInv(Step(g, s, e))
  {
    hide Inv, PairInv, Bounded, Scoped;
    var id := if e.Claim? || e.ObserveTool? then e.params.callId else e.id;
    var k := Find(s.calls, id);
    var t := Step(g, s, e);
    if k < |s.calls| && t != s {
      CallSound(s, k);
      UpdatePairs(s, k, t.calls[k]);
      SamePairs(Update(s, k, t.calls[k]), t);
    }
  }

  lemma RequestPairs(g: Config, s: State, e: Event)
    requires Inv(s) && PairInv(s) && (e.Request? || e.Body? || e.Check? || e.Forward? || e.Respond?)
    ensures PairInv(Step(g, s, e))
  {
    hide Inv, PairInv, ReadBody, CheckCall, Receive, StampsFit;
    StampsOf(s);
    RejectPairs(s);
    match e
    case Request(admitted) =>
      if s.failed {
        FailedPairs(Step(g, s, e));
      } else {
        SamePairs(s, Step(g, s, e));
      }
    case Body(input) =>
      if s.stage.Reading? && input.Some? {
        BodyPairs(s, input.value);
      }
    case Check =>
      if s.stage.Checking? && s.initial.Some? {
        CheckPairs(s, s.stage.input, s.stage.index);
      }
    case Forward(ok) =>
      if s.stage.Checked? && !s.failed {
        ForwardPairs(s);
      }
    case Respond(outcome) =>
      if s.stage.Upstream? {
        ReceivePairs(g, s, outcome);
      }
  }

  lemma StepPairs(g: Config, s: State, e: Event)
    requires Inv(s) && PairInv(s)
    ensures PairInv(Step(g, s, e))
  {
    hide Inv, PairInv, ReadBody, CheckCall, Receive, StampsFit, Claimable, Completable, Observable, Find;
    if e.Request? || e.Body? || e.Check? || e.Forward? || e.Respond? {
      RequestPairs(g, s, e);
    } else if e.Claim? || e.Complete? || e.WriteSettles? || e.ObserveTool? {
      CallPairs(g, s, e);
    } else if s.failed {
      StampsOf(s);
      FailedPairs(Step(g, s, e));
    } else {
      SamePairs(s, Step(g, s, e));
    }
  }

  lemma {:induction false} RunPairs(g: Config, s: State, events: seq<Event>)
    requires Inv(s) && PairInv(s)
    ensures PairInv(Run(g, s, events))
    decreases |events|
  {
    hide Inv, PairInv, Step;
    if events != [] {
      StepKeeps(g, s, events[0]);
      StepPairs(g, s, events[0]);
      RunPairs(g, Step(g, s, events[0]), events[1..]);
    }
  }

  lemma StartPairs()
    ensures PairInv(START)
  {
  }

  /** A later request carries everything an earlier one carried: the history
      sent on is never changed, item ids and tool names included. */
  lemma HistoryGrows(g: Config, events: seq<Event>, k: nat, l: nat)
    requires !Run(g, START, events).failed && k <= l < |Run(g, START, events).forwarded|
    ensures Run(g, START, events).forwarded[k] <= Run(g, START, events).forwarded[l]
  {
    hide Run, Carries, HistoryAt, PairsAt, Inv;
    StartFine();
    RunKeeps(g, START, events);
    StartPairs();
    RunPairs(g, START, events);
    FollowUpsCarryHistory(g, events, k);
    FollowUpsCarryHistory(g, events, l);
    var s := Run(g, START, events);
    assert SentPair(s, k) && SentPair(s, l);
    SamePrefix(s.forwarded[k], s.forwarded[l], s.initial.value, s.calls, k, l);
  }

  lemma SamePrefix(a: seq<Entry>, b: seq<Entry>, initial: seq<Entry>, calls: seq<Call>, k: nat, l: nat)
    requires k <= l <= |calls| && Carries(a, initial, calls[..k]) && Carries(b, initial, calls[..l])
    requires PairsAt(a, |initial|, calls[..k]) && PairsAt(b, |initial|, calls[..l])
    ensures a <= b
  {
    hide HistoryAt;
    var n := |initial|;
    assert |a| == n + 2 * k <= |b|;
    forall i | 0 <= i < |a| ensures a[i] == b[i] {
      if i < n {
        assert a[..n] == initial == b[..n];
        assert a[i] == a[..n][i] && b[i] == b[..n][i];
      } else {
        var j := (i - n) / 2;
        assert PairOf(calls[..k][j], a[n + 2 * j], a[n + 2 * j + 1]);
        assert PairOf(calls[..l][j], b[n + 2 * j], b[n + 2 * j + 1]);
        assert i == n + 2 * j || i == n + 2 * j + 1;
      }
    }
  }

  // ------------------------------------------------ what makes it fail

  /** An input that may open the turn: messages, the last one the user's prompt. */
  predicate Opens(input: seq<Entry>) {
    && 0 < |input| <= 256 && (forall i :: 0 <= i < |input| ==> input[i].Message?)
    && input[|input| - 1].userPrompt
  }

  /** An input that may follow: the first one again, and two more items for each call. */
  predicate Follows(input: seq<Entry>, initial: seq<Entry>, calls: nat) {
    0 < calls && |input| == |initial| + 2 * calls <= 256 && initial == input[..|initial|]
  }

  /** The next call comes back as it was issued and answered, under the id and
      name it came back under before. */
  predicate HandsBack(input: seq<Entry>, at: nat, c: Call) {
    && at + 1 < |input| && input[at] == CallItem(c.id, c.tool, c.raw)
    && match input[at + 1]
       case OutputItem(callId, output, itemId, toolName) =>
         && callId == c.id && c.output == Some(output)
         && (itemId.None? || CheckedId(itemId.value)) && (toolName.None? || toolName == Some(c.tool))
         && (c.stamp.None? || c.stamp == Some(Stamp(itemId, toolName)))
       case _ => false
  }

  /** A response the relay may take: a new call of an offered tool, within the
      requests left, or the one final text; in full, and with its usage. */
  predicate Takes(g: Config, s: State, outcome: Outcome) {
    match outcome
    case Broken => false
    case ToolCall(responseId, callId, name, raw, arguments, usage) =>
      && responseId !in s.responses && CheckedId(responseId) && CheckedId(callId) && g.offered(name)
      && Bounded(raw, 524_288, false) && arguments.Some? && usage && s.finalText.None?
      && |s.calls| + 1 < g.maxRequests && forall j :: 0 <= j < |s.calls| ==> s.calls[j].id != callId
    case FinalText(responseId, text, readable, usage) =>
      && responseId !in s.responses && CheckedId(responseId) && Bounded(text, g.maxFinal, false)
      && readable && usage && s.finalText.None?
  }

  /** The events that fail a relay that has not failed. */
  predicate Harmful(g: Config, s: State, e: Event) {
    match e
    case Request(admitted) =>
      !admitted || s.closed || s.active > 0 || s.requests >= g.maxRequests || s.finalText.Some?
    case Body(input) =>
      && s.stage.Reading?
      && !(input.Some? && if s.initial.None? then s.calls == [] && Opens(input.value)
                          else Follows(input.value, s.initial.value, |s.calls|))
    case Check =>
      && s.stage.Checking? && s.initial.Some? && s.stage.index < |s.calls|
      && var c := s.calls[s.stage.index];
         s.closed || !c.claimed || !c.write.Written? ||
         !HandsBack(s.stage.input, |s.initial.value| + 2 * s.stage.index, c)
    case Forward(ok) => s.stage.Checked? && (!ok || !s.bound.Bound? || s.closed)
    case Respond(outcome) => s.stage.Upstream? && !Takes(g, s, outcome)
    case _ => false
  }

  lemma BodyFails(s: State, input: seq<Entry>)
    requires !s.failed && s.stage.Reading?
    ensures ReadBody(s, input).failed <==>
              !(if s.initial.None? then s.calls == [] && Opens(input) else Follows(input, s.initial.value, |s.calls|))
  {
    if s.initial.Some? && |s.initial.value| <= |input| {
      assert s.initial.value <= input <==> s.initial.value == input[..|s.initial.value|];
    }
  }

  lemma CheckFails(s: State, input: seq<Entry>, index: nat)
    requires !s.failed && s.initial.Some?
    ensures CheckCall(s, input, index).failed <==>
              && index < |s.calls|
              && (s.closed || !s.calls[index].claimed || !s.calls[index].write.Written? ||
                  !HandsBack(input, |s.initial.value| + 2 * index, s.calls[index]))
  {
  }

  lemma ResponseFails(g: Config, s: State, outcome: Outcome)
    requires !s.failed
    ensures Receive(g, s, outcome).failed <==> !Takes(g, s, outcome)
  {
    hide Bounded, CheckedId;
    if outcome.ToolCall? {
      FindNone(s.calls, outcome.callId);
    }
  }

  lemma FindNone(calls: seq<Call>, id: Text)
    ensures Find(calls, id) == |calls| <==> forall j :: 0 <= j < |calls| ==> calls[j].id != id
  {
    if Find(calls, id) < |calls| {
      assert calls[Find(calls, id)].id == id;
    }
  }

  /** A relay that has not failed fails exactly with a harmful event. */
  lemma FailsExactly(g: Config, s: State, e: Event)
    requires !s.failed
    ensures Step(g, s, e).failed <==> Harmful(g, s, e)
  {
    hide ReadBody, CheckCall, Receive, Takes, HandsBack, Opens, Follows, Claimable, Completable, Observable, Find,
      CheckedId;
    match e
    case Body(input) =>
      if s.stage.Reading? && input.Some? {
        BodyFails(s, input.value);
      }
    case Check =>
      if s.stage.Checking? && s.initial.Some? {
        CheckFails(s, s.stage.input, s.stage.index);
      }
    case Respond(outcome) => ResponseFails(g, s, outcome);
    case _ =>
  }

  // ------------------------------------------------------- over whole runs

  /** What the handling of a request leaves alone. */
  predicate Steadies(s: State, t: State) {
    && t.requests == s.requests && t.forwarded == s.forwarded && t.bound == s.bound && t.closed == s.closed
    && (s.failed ==> t.failed)
  }

  lemma BodySteadies(s: State, input: seq<Entry>)
    ensures Steadies(s, ReadBody(s, input))
  {
    hide Initial;
  }

  lemma CheckSteadies(s: State, input: seq<Entry>, index: nat)
    requires s.initial.Some?
    ensures Steadies(s, CheckCall(s, input, index))
  {
    hide HistoryAt;
  }

  lemma ReceiveSteadies(g: Config, s: State, outcome: Outcome)
    ensures Steadies(s, Receive(g, s, outcome))
  {
    hide Bounded, CheckedId, Find;
  }

  lemma HandlingSteadies(g: Config, s: State, e: Event)
    requires e.Body? || e.Check? || e.Respond?
    ensures Steadies(s, Step(g, s, e))
  {
    hide ReadBody, CheckCall, Receive;
    match e
    case Body(input) =>
      if input.Some? {
        BodySteadies(s, input.value);
      }
    case Check =>
      if s.stage.Checking? && s.initial.Some? {
        CheckSteadies(s, s.stage.input, s.stage.index);
      }
    case Respond(outcome) => ReceiveSteadies(g, s, outcome);
  }

  lemma CloseStep(g: Config, s: State, e: Event)
    ensures Step(g, s, e).closed <==> s.closed || e.Close?
  {
    hide Claimable, Completable, Observable, Find, CheckedId, ReadBody, CheckCall, Receive;
    if e.Body? || e.Check? || e.Respond? {
      HandlingSteadies(g, s, e);
    }
  }

  /** Only a bind with a thread id does anything to an unbound relay, and
      nothing undoes it. */
  function BoundBy(events: seq<Event>): Binding
    decreases |events|
  {
    if events == [] then Unbound
    else
      match events[0]
      case Bind(thread, turn) =>
        if !CheckedId(thread) then BoundBy(events[1..])
        else if CheckedId(turn) then Bound(thread, turn) else ThreadOnly
      case _ => BoundBy(events[1..])
  }

  lemma BindStep(g: Config, s: State, e: Event)
    ensures Step(g, s, e).bound ==
              if s.bound.Unbound? && e.Bind? && CheckedId(e.threadId)
              then (if CheckedId(e.turnId) then Bound(e.threadId, e.turnId) else ThreadOnly)
              else s.bound
  {
    hide Claimable, Completable, Observable, Find, CheckedId, ReadBody, CheckCall, Receive;
    if e.Body? || e.Check? || e.Respond? {
      HandlingSteadies(g, s, e);
    }
  }

  lemma LimitStep(g: Config, s: State, e: Event)
    requires |s.calls| < 1 || |s.calls| < g.maxRequests
    ensures var t := Step(g, s, e);
            && (t.requests <= g.maxRequests || t.failed || t.requests == s.requests)
            && (|t.calls| < 1 || |t.calls| < g.maxRequests)
            && (t.forwarded != s.forwarded ==> s.bound.Bound?)
            && (s.failed ==> t.failed)
  {
    hide Claimable, Completable, Observable, Find, CheckedId, ReadBody, CheckCall, Receive;
    CallsLimit(g, s, e);
    if e.Body? || e.Check? || e.Respond? {
      HandlingSteadies(g, s, e);
    }
  }

  /** One request at most is in flight, also in a relay that has failed. */
  lemma ActiveStep(g: Config, s: State, e: Event)
    requires s.active == if s.stage.Quiet? then 0 else 1
    ensures Step(g, s, e).active == if Step(g, s, e).stage.Quiet? then 0 else 1
  {
    hide Claimable, Completable, Observable, Find, CheckedId, ReadBody, CheckCall, Receive;
    match e
    case Body(input) =>
      if input.Some? && s.stage.Reading? {
        BodyActive(s, input.value);
      }
    case Check =>
      if s.stage.Checking? && s.initial.Some? {
        CheckActive(s, s.stage.input, s.stage.index);
      }
    case Respond(outcome) =>
      if s.stage.Upstream? {
        ReceiveActive(g, s, outcome);
      }
    case _ =>
  }

  lemma BodyActive(s: State, input: seq<Entry>)
    requires s.active == 1
    ensures ReadBody(s, input).active == if ReadBody(s, input).stage.Quiet? then 0 else 1
  {
    hide Initial;
  }

  lemma CheckActive(s: State, input: seq<Entry>, index: nat)
    requires s.active == 1 && s.initial.Some?
    ensures CheckCall(s, input, index).active == if CheckCall(s, input, index).stage.Quiet? then 0 else 1
  {
    hide HistoryAt;
  }

  lemma ReceiveActive(g: Config, s: State, outcome: Outcome)
    requires s.active == 1
    ensures Receive(g, s, outcome).active == 0 && Receive(g, s, outcome).stage.Quiet?
  {
    hide Find, CheckedId, Bounded;
  }

  lemma CallsLimit(g: Config, s: State, e: Event)
    ensures var t := Step(g, s, e); |t.calls| == |s.calls| || |t.calls| < g.maxRequests
  {
    hide Scoped, Find, CheckedId, Bounded, HistoryAt, Initial, Receive;
    if e.Respond? {
      ReceiveLimit(g, s, e.outcome);
    }
  }

  lemma ReceiveLimit(g: Config, s: State, outcome: Outcome)
    ensures var t := Receive(g, s, outcome); |t.calls| == |s.calls| || |t.calls| < g.maxRequests
  {
    hide Find, CheckedId, Bounded;
  }

  ghost predicate Within(g: Config, s: State) {
    && (s.requests <= g.maxRequests || s.failed) && (s.calls == [] || |s.calls| < g.maxRequests)
    && (s.forwarded != [] ==> s.bound.Bound?) && s.active == if s.stage.Quiet? then 0 else 1
  }

  lemma {:induction false} RunWithin(g: Config, s: State, events: seq<Event>)
    requires Within(g, s)
    ensures Within(g, Run(g, s, events))
    ensures Run(g, s, events).closed <==> s.closed || exists i :: 0 <= i < |events| && events[i].Close?
    ensures s.bound.Unbound? ==> Run(g, s, events).bound == BoundBy(events)
    ensures !s.bound.Unbound? ==> Run(g, s, events).bound == s.bound
    decreases |events|
  {
    hide Step, CheckedId;
    if events != [] {
      var t := Step(g, s, events[0]);
      LimitStep(g, s, events[0]);
      CloseStep(g, s, events[0]);
      BindStep(g, s, events[0]);
      ActiveStep(g, s, events[0]);
      RunWithin(g, t, events[1..]);
      Tail(events);
    }
  }

  lemma Tail(events: seq<Event>)
    requires events != []
    ensures (exists i :: 0 <= i < |events| && events[i].Close?) <==>
              events[0].Close? || exists i :: 0 <= i < |events[1..]| && events[1..][i].Close?
  {
    forall i | 0 < i < |events| ensures events[i] == events[1..][i - 1] {
    }
  }

  /** In every run at most the configured number of requests is made and fewer
      calls are issued; nothing is sent on before the relay is bound; the
      binding is that of the first bind with a thread id, even when its turn id
      is refused; the relay is closed exactly after a close; and the requests
      counted as active are the one in flight, if there is one. */
  lemma LimitsKept(g: Config, events: seq<Event>)
    ensures var s := Run(g, START, events);
            && (s.requests <= g.maxRequests || s.failed) && (s.calls == [] || |s.calls| < g.maxRequests)
            && (s.forwarded != [] ==> s.bound.Bound?) && s.bound == BoundBy(events)
            && (s.closed <==> exists i :: 0 <= i < |events| && events[i].Close?)
            && s.active == if s.stage.Quiet? then 0 else 1
  {
    hide Run, BoundBy;
    RunWithin(g, START, events);
  }
}

/** Where everything the relay holds comes from: the response, the callback or
    the item among the events so far that brought it. */
module RelayHistory {
  import opened Texts
  import opened Canonical
  import opened Relay

  /** The relay after the first `k` events. */
  function At(g: Config, events: seq<Event>, k: nat): State
    requires k <= |events|
  {
    Run(g, START, events[..k])
  }

  lemma {:induction false} RunMore(g: Config, s: State, events: seq<Event>, e: Event)
    ensures Run(g, s, events + [e]) == Step(g, Run(g, s, events), e)
    decreases |events|
  {
    hide Step;
    if events == [] {
      assert events + [e] == [e];
      assert Run(g, s, [e]) == Run(g, Step(g, s, e), [e][1..]);
    } else {
      assert (events + [e])[1..] == events[1..] + [e];
      RunMore(g, Step(g, s, events[0]), events[1..], e);
    }
  }

  lemma AtNext(g: Config, events: seq<Event>, k: nat)
    requires k < |events|
    ensures At(g, events, k + 1) == Step(g, At(g, events, k), events[k])
  {
    hide Step, Run;
    RunMore(g, START, events[..k], events[k]);
    assert events[..k + 1] == events[..k] + [events[k]];
  }

  lemma AtEnd(g: Config, events: seq<Event>)
    ensures At(g, events, |events|) == Run(g, START, events)
  {
    assert events[..|events|] == events;
  }

  /** What holds after some events and not before them began with one of them. */
  lemma {:induction false} Begins(g: Config, events: seq<Event>, p: State -> bool, limit: nat) returns (k: nat)
    requires limit <= |events| && !p(START) && p(At(g, events, limit))
    ensures k < limit && !p(At(g, events, k)) && p(At(g, events, k + 1))
    decreases limit
  {
    hide Step;
    assert At(g, events, 0) == START;
    k := limit - 1;
    if p(At(g, events, k)) {
      k := Begins(g, events, p, k);
    }
  }

  /** What no event takes back holds to the end. */
  lemma {:induction false} Lasts(g: Config, events: seq<Event>, p: State -> bool, from: nat)
    requires from <= |events| && p(At(g, events, from))
    requires forall k :: 0 <= k < |events| && p(At(g, events, k)) ==> p(Step(g, At(g, events, k), events[k]))
    ensures p(Run(g, START, events))
    decreases |events| - from
  {
    hide Step, At;
    if from == |events| {
      AtEnd(g, events);
    } else {
      AtNext(g, events, from);
      Lasts(g, events, p, from + 1);
    }
  }

  lemma AtInv(g: Config, events: seq<Event>, k: nat)
    requires k <= |events|
    ensures Inv(At(g, events, k))
  {
    hide Inv, Run;
    StartFine();
    RunKeeps(g, START, events[..k]);
  }

  // --------------------------------------------------------- the final text

  /** The response that carries the final text, in a relay that may take it. */
  predicate AnswersFinal(g: Config, s: State, e: Event, x: Text) {
    && e.Respond? && e.outcome.FinalText? && e.outcome.text == x
    && s.stage.Upstream? && s.finalText.None? && e.outcome.responseId !in s.responses
    && CheckedId(e.outcome.responseId) && Bounded(x, g.maxFinal, false)
  }

  lemma FinalTextStep(g: Config, s: State, e: Event, x: Text)
    ensures s.finalText != Some(x) && Step(g, s, e).finalText == Some(x) ==> AnswersFinal(g, s, e, x)
    ensures AnswersFinal(g, s, e, x) ==> Step(g, s, e).finalText == Some(x)
    ensures s.finalText == Some(x) ==> Step(g, s, e).finalText == Some(x)
  {
    hide Claimable, Completable, Observable, Find, Bounded, CheckedId, Receive, ReadBody, CheckCall;
    match e
    case Respond(outcome) => ReceiveFinal(g, s, e, x);
    case Body(input) =>
      if input.Some? {
        HandlingKeepsText(s, input.value, 0);
      }
    case Check =>
      if s.stage.Checking? {
        HandlingKeepsText(s, s.stage.input, s.stage.index);
      }
    case _ =>
  }

  lemma ReceiveFinal(g: Config, s: State, e: Event, x: Text)
    requires e.Respond?
    ensures var t := if s.stage.Upstream? then Receive(g, s, e.outcome) else s;
            && (s.finalText != Some(x) && t.finalText == Some(x) ==> AnswersFinal(g, s, e, x))
            && (AnswersFinal(g, s, e, x) || s.finalText == Some(x) ==> t.finalText == Some(x))
  {
    hide Find, Bounded, CheckedId;
  }

  lemma HandlingKeepsText(s: State, input: seq<Entry>, index: nat)
    ensures ReadBody(s, input).finalText == s.finalText
    ensures s.initial.Some? ==> CheckCall(s, input, index).finalText == s.finalText
  {
    hide HistoryAt, Initial;
  }

  /** The relay holds exactly the text of the response that brought it. */
  lemma FinalTextIsAnswered(g: Config, events: seq<Event>, x: Text)
    ensures Run(g, START, events).finalText == Some(x)
            <==> exists k :: 0 <= k < |events| && AnswersFinal(g, At(g, events, k), events[k], x)
  {
    hide Step, AnswersFinal;
    AtEnd(g, events);
    var held := (s: State) => s.finalText == Some(x);
    if held(Run(g, START, events)) {
      var k := Begins(g, events, held, |events|);
      AtNext(g, events, k);
      FinalTextStep(g, At(g, events, k), events[k], x);
    } else if k :| 0 <= k < |events| && AnswersFinal(g, At(g, events, k), events[k], x) {
      AtNext(g, events, k);
      FinalTextStep(g, At(g, events, k), events[k], x);
      forall i | 0 <= i < |events| && held(At(g, events, i)) ensures held(Step(g, At(g, events, i), events[i])) {
        FinalTextStep(g, At(g, events, i), events[i], x);
      }
      Lasts(g, events, held, k + 1);
      assert false;
    }
  }

  // ---------------------------------------------------------------- calls

  /** The response that issues a call, in a relay that may take it. */
  predicate IssuesCall(g: Config, s: State, e: Event, c: Call) {
    && e.Respond? && e.outcome.ToolCall? && s.stage.Upstream? && s.finalText.None?
    && c.id == e.outcome.callId && c.tool == e.outcome.name && c.raw == e.outcome.raw
    && e.outcome.arguments == Some(c.arguments)
    && e.outcome.responseId !in s.responses && CheckedId(e.outcome.responseId) && CheckedId(c.id)
    && g.offered(c.tool) && Bounded(c.raw, MAX_ARGUMENTS, false) && |s.calls| + 1 < g.maxRequests
    && forall j :: 0 <= j < |s.calls| ==> s.calls[j].id != c.id
  }

  predicate SameCallIssue(a: Call, b: Call) {
    a.id == b.id && a.tool == b.tool && a.arguments == b.arguments && a.raw == b.raw
  }

  /** The callback that asks for a call, exactly as it was issued. */
  predicate ClaimsCall(s: State, e: Event, c: Call) {
    && e.Claim? && e.params.callId == c.id && e.params.tool == c.tool && !e.params.namespaced
    && e.params.arguments == c.arguments && s.bound == Bound(e.params.threadId, e.params.turnId)
    && !s.failed && !s.closed && !c.claimed
  }

  predicate CompletesCall(s: State, e: Event, c: Call) {
    e.Complete? && e.id == c.id && Bounded(e.text, MAX_TEXT, true) && c.claimed && c.write.Unwritten?
  }

  predicate ItemOf(s: State, e: Event, c: Call) {
    && e.ObserveTool? && e.params.callId == c.id && e.params.tool == c.tool && !e.params.namespaced
    && e.params.arguments == c.arguments && s.bound == Bound(e.params.threadId, e.params.turnId)
  }

  predicate CompletionItem(s: State, e: Event, c: Call) {
    && ItemOf(s, e, c) && e.completed && c.started && c.claimed && !c.completed
    && c.success == Some(e.successful) && c.output == Some(e.content)
  }

  /** The call after one event: every part changes by its own event and no other. */
  predicate CallAfter(s: State, e: Event, c: Call, d: Call) {
    && SameCallIssue(c, d)
    && d.claimed == (c.claimed || ClaimsCall(s, e, c))
    && d.output == (if CompletesCall(s, e, c) then Some(e.text) else c.output)
    && d.success == (if CompletesCall(s, e, c) then Some(e.success) else c.success)
    && d.started == (c.started || (ItemOf(s, e, c) && !e.completed))
    && d.completed == (c.completed || CompletionItem(s, e, c))
    && d.write == (if CompletesCall(s, e, c) then Writing
                   else if e.WriteSettles? && e.id == c.id && c.write.Writing?
                   then (if e.ok then Written else WriteFailed)
                   else c.write)
  }

  lemma FindIs(calls: seq<Call>, j: nat)
    requires j < |calls| && Distinct(calls)
    ensures Find(calls, calls[j].id) == j
  {
  }

  predicate Distinct(calls: seq<Call>) {
    forall i, k :: 0 <= i < k < |calls| ==> calls[i].id != calls[k].id
  }

  lemma ClaimOn(g: Config, s: State, e: Event, j: nat)
    requires e.Claim? && Distinct(s.calls) && j < |s.calls|
    ensures j < |Step(g, s, e).calls| && CallAfter(s, e, s.calls[j], Step(g, s, e).calls[j])
  {
    hide Find;
    FindIs(s.calls, j);
    FindOnly(s.calls, e.params.callId, j);
  }

  lemma CompleteOn(g: Config, s: State, e: Event, j: nat)
    requires e.Complete? && Distinct(s.calls) && j < |s.calls|
    ensures j < |Step(g, s, e).calls| && CallAfter(s, e, s.calls[j], Step(g, s, e).calls[j])
  {
    hide Find, Bounded;
    FindIs(s.calls, j);
    FindOnly(s.calls, e.id, j);
  }

  lemma WriteOn(g: Config, s: State, e: Event, j: nat)
    requires e.WriteSettles? && Distinct(s.calls) && j < |s.calls|
    ensures j < |Step(g, s, e).calls| && CallAfter(s, e, s.calls[j], Step(g, s, e).calls[j])
  {
    hide Find;
    FindIs(s.calls, j);
    FindOnly(s.calls, e.id, j);
  }

  lemma ItemOn(g: Config, s: State, e: Event, j: nat)
    requires e.ObserveTool? && Distinct(s.calls) && j < |s.calls|
    ensures j < |Step(g, s, e).calls| && CallAfter(s, e, s.calls[j], Step(g, s, e).calls[j])
  {
    hide Find, Observable, CompletionItem, ItemOf;
    FindIs(s.calls, j);
    FindOnly(s.calls, e.params.callId, j);
    if Find(s.calls, e.params.callId) == j {
      ItemAccepted(s, e, j);
    } else {
      ItemElsewhere(s, e, j);
    }
  }

  lemma ItemAccepted(s: State, e: Event, j: nat)
    requires e.ObserveTool? && j < |s.calls| && Find(s.calls, e.params.callId) == j
    ensures Observable(s, e.params, e.completed, e.successful, e.content) <==>
              if e.completed then CompletionItem(s, e, s.calls[j]) else ItemOf(s, e, s.calls[j]) && !s.calls[j].started
    ensures CompletionItem(s, e, s.calls[j]) ==> e.completed
    ensures s.calls[j].id == e.params.callId
  {
    hide Find;
  }

  lemma ItemElsewhere(s: State, e: Event, j: nat)
    requires e.ObserveTool? && j < |s.calls| && s.calls[j].id != e.params.callId
    ensures !ItemOf(s, e, s.calls[j]) && !CompletionItem(s, e, s.calls[j])
    ensures Observable(s, e.params, e.completed, e.successful, e.content) ==>
              Find(s.calls, e.params.callId) < |s.calls|
  {
    hide Find;
  }

  lemma FindOnly(calls: seq<Call>, id: Text, j: nat)
    requires Distinct(calls) && j < |calls|
    ensures Find(calls, id) == j <==> calls[j].id == id
  {
    FindIs(calls, j);
  }

  // The handling of a request marks calls as read back and issues new ones.

  lemma BodyOn(s: State, input: seq<Entry>)
    ensures ReadBody(s, input).calls == s.calls
  {
    hide Initial;
  }

  lemma CheckOn(s: State, input: seq<Entry>, index: nat, j: nat)
    requires j < |s.calls| && s.initial.Some?
    ensures var d := CheckCall(s, input, index).calls;
            |d| == |s.calls| && d[j] == s.calls[j].(observed := d[j].observed, stamp := d[j].stamp)
  {
    hide HistoryAt;
  }

  lemma ReceiveOn(g: Config, s: State, outcome: Outcome, j: nat)
    requires j < |s.calls|
    ensures j < |Receive(g, s, outcome).calls| && Receive(g, s, outcome).calls[j] == s.calls[j]
  {
    hide Find, Bounded, CheckedId;
  }

  lemma CallStep(g: Config, s: State, e: Event, j: nat)
    requires Distinct(s.calls) && j < |s.calls|
    ensures j < |Step(g, s, e).calls| && CallAfter(s, e, s.calls[j], Step(g, s, e).calls[j])
  {
    hide Find, Claimable, Completable, Observable, CheckedId, ReadBody, CheckCall, Receive, Distinct;
    match e
    case Claim(_) => ClaimOn(g, s, e, j);
    case Complete(_, _, _) => CompleteOn(g, s, e, j);
    case WriteSettles(_, _) => WriteOn(g, s, e, j);
    case ObserveTool(_, _, _, _) => ItemOn(g, s, e, j);
    case Body(input) =>
      if input.Some? {
        BodyOn(s, input.value);
      }
    case Check =>
      if s.stage.Checking? && s.initial.Some? {
        CheckOn(s, s.stage.input, s.stage.index, j);
      }
    case Respond(outcome) => ReceiveOn(g, s, outcome, j);
    case _ =>
  }

  /** A call is new exactly when a response issues it, and then it is the last. */
  lemma IssueStep(g: Config, s: State, e: Event)
    ensures var t := Step(g, s, e);
            && (|t.calls| == |s.calls| || |t.calls| == |s.calls| + 1)
            && (|t.calls| > |s.calls| ==>
                  var c := t.calls[|s.calls|];
                  && IssuesCall(g, s, e, c) && !c.claimed && !c.started && !c.completed
                  && c.output.None? && c.success.None?
                  && c.write.Unwritten? && !c.observed)
            && (forall c :: IssuesCall(g, s, e, c) ==> |t.calls| > |s.calls| && SameCallIssue(c, t.calls[|s.calls|]))
  {
    hide Find, Bounded, CheckedId, ReadBody, CheckCall, Receive;
    match e
    case Respond(outcome) =>
      if s.stage.Upstream? {
        ReceiveIssues(g, s, e);
      }
    case Body(input) =>
      if input.Some? {
        BodyOn(s, input.value);
      }
    case Check =>
      if s.stage.Checking? && s.initial.Some? {
        CheckIssuesNone(s, s.stage.input, s.stage.index);
      }
    case _ =>
  }

  lemma CheckIssuesNone(s: State, input: seq<Entry>, index: nat)
    requires s.initial.Some?
    ensures |CheckCall(s, input, index).calls| == |s.calls|
  {
    hide HistoryAt;
  }

  lemma ReceiveIssues(g: Config, s: State, e: Event)
    requires e.Respond? && s.stage.Upstream?
    ensures var t := Receive(g, s, e.outcome);
            && (|t.calls| == |s.calls| || |t.calls| == |s.calls| + 1)
            && (|t.calls| > |s.calls| ==>
                  var c := t.calls[|s.calls|];
                  && IssuesCall(g, s, e, c) && !c.claimed && !c.started && !c.completed
                  && c.output.None? && c.success.None?
                  && c.write.Unwritten? && !c.observed)
            && (forall c :: IssuesCall(g, s, e, c) ==> |t.calls| > |s.calls| && SameCallIssue(c, t.calls[|s.calls|]))
  {
    hide Find, Bounded, CheckedId;
    if e.outcome.ToolCall? {
      FindKnown(s.calls, e.outcome.callId);
    }
  }

  lemma FindKnown(calls: seq<Call>, id: Text)
    ensures Find(calls, id) < |calls| <==> !(forall j :: 0 <= j < |calls| ==> calls[j].id != id)
  {
  }

  // --------------------------------------------------------- over all runs

  lemma AtDistinct(g: Config, events: seq<Event>, k: nat)
    requires k <= |events|
    ensures Distinct(At(g, events, k).calls)
  {
    hide At;
    AtInv(g, events, k);
  }

  /** Calls only grow in number, and keep what they were issued with. */
  lemma {:induction false} CallsGrow(g: Config, events: seq<Event>, k: nat, j: nat)
    requires k <= |events| && j < |At(g, events, k).calls|
    ensures j < |Run(g, START, events).calls|
    ensures SameCallIssue(At(g, events, k).calls[j], Run(g, START, events).calls[j])
    decreases |events| - k
  {
    hide Step, At, Distinct;
    if k == |events| {
      AtEnd(g, events);
    } else {
      AtDistinct(g, events, k);
      AtNext(g, events, k);
      CallStep(g, At(g, events, k), events[k], j);
      CallsGrow(g, events, k + 1, j);
    }
  }

  /** The `j`-th call is the one the response brought that came when there were `j`. */
  lemma CallsAreIssued(g: Config, events: seq<Event>, j: nat) returns (k: nat)
    requires j < |Run(g, START, events).calls|
    ensures k < |events| && |At(g, events, k).calls| == j < |At(g, events, k + 1).calls|
    ensures IssuesCall(g, At(g, events, k), events[k], At(g, events, k + 1).calls[j])
    ensures SameCallIssue(At(g, events, k + 1).calls[j], Run(g, START, events).calls[j])
  {
    hide Step, At, IssuesCall, Run;
    AtEnd(g, events);
    var has := (s: State) => |s.calls| > j;
    k := Begins(g, events, has, |events|);
    AtNext(g, events, k);
    IssueStep(g, At(g, events, k), events[k]);
    CallsGrow(g, events, k + 1, j);
  }

  /** Every response that issues a call has it among the calls, at its place. */
  lemma IssuesAreCalls(g: Config, events: seq<Event>, k: nat, c: Call)
    requires k < |events| && IssuesCall(g, At(g, events, k), events[k], c)
    ensures var j := |At(g, events, k).calls|;
            j < |Run(g, START, events).calls| && SameCallIssue(c, Run(g, START, events).calls[j])
  {
    hide Step, At, IssuesCall, Run;
    AtNext(g, events, k);
    IssueStep(g, At(g, events, k), events[k]);
    CallsGrow(g, events, k + 1, |At(g, events, k).calls|);
  }

  /** What a call's part is set by, in a state where the call is the `j`-th. */
  predicate SetBy(g: Config, s: State, e: Event, j: nat, part: Part) {
    j < |s.calls| && match part
    case Claimed => ClaimsCall(s, e, s.calls[j])
    case Output(text, success) => CompletesCall(s, e, s.calls[j]) && e.text == text && e.success == success
    case Started => ItemOf(s, e, s.calls[j]) && !e.completed
    case Completed => CompletionItem(s, e, s.calls[j])
  }

  datatype Part = Claimed | Output(text: Text, success: bool) | Started | Completed

  predicate Holds(c: Call, part: Part) {
    match part
    case Claimed => c.claimed
    case Output(text, success) => c.output == Some(text) && c.success == Some(success)
    case Started => c.started
    case Completed => c.completed
  }

  predicate CallHolds(s: State, j: nat, part: Part) {
    j < |s.calls| && Holds(s.calls[j], part)
  }

  /** An answered call is not answered again. */
  predicate Answered(s: State) {
    forall j :: 0 <= j < |s.calls| ==>
      && (s.calls[j].output.Some? <==> !s.calls[j].write.Unwritten?)
      && (s.calls[j].output.Some? <==> s.calls[j].success.Some?)
  }

  lemma {:induction false} AtAnswered(g: Config, events: seq<Event>, k: nat)
    requires k <= |events|
    ensures Answered(At(g, events, k))
    decreases k
  {
    hide At, Step, Distinct, IssuesCall, ClaimsCall, ItemOf, CompletionItem;
    if k == 0 {
      assert At(g, events, 0) == START by {
        AtStart(g, events);
      }
    } else {
      AtAnswered(g, events, k - 1);
      AtNext(g, events, k - 1);
      var s, e := At(g, events, k - 1), events[k - 1];
      AtDistinct(g, events, k - 1);
      IssueStep(g, s, e);
      forall j | 0 <= j < |s.calls|
        ensures j < |Step(g, s, e).calls| && CallAfter(s, e, s.calls[j], Step(g, s, e).calls[j])
      {
        CallStep(g, s, e, j);
      }
    }
  }

  lemma AtStart(g: Config, events: seq<Event>)
    ensures At(g, events, 0) == START
  {
  }

  lemma PartStep(g: Config, s: State, e: Event, j: nat, part: Part)
    requires Distinct(s.calls) && Answered(s)
    ensures !CallHolds(s, j, part) && CallHolds(Step(g, s, e), j, part) ==> SetBy(g, s, e, j, part)
    ensures SetBy(g, s, e, j, part) || CallHolds(s, j, part) ==> CallHolds(Step(g, s, e), j, part)
  {
    hide Step, Distinct, IssuesCall, ClaimsCall, ItemOf, Bounded;
    IssueStep(g, s, e);
    if j < |s.calls| {
      CallStep(g, s, e, j);
    }
  }

  /** Whatever a call shows was set by its own event: it is claimed exactly by a
      callback that names it as issued, its output and its success are exactly
      those completed for it, and its items exactly those observed. */
  lemma PartsAreSet(g: Config, events: seq<Event>, j: nat, part: Part)
    ensures CallHolds(Run(g, START, events), j, part)
            <==> exists k :: 0 <= k < |events| && SetBy(g, At(g, events, k), events[k], j, part)
  {
    hide Step, SetBy, At, Distinct, Answered, Run;
    AtEnd(g, events);
    AtStart(g, events);
    var held := (s: State) => CallHolds(s, j, part);
    forall k | 0 <= k < |events|
      ensures At(g, events, k + 1) == Step(g, At(g, events, k), events[k])
      ensures !held(At(g, events, k)) && held(At(g, events, k + 1)) ==> SetBy(g, At(g, events, k), events[k], j, part)
      ensures SetBy(g, At(g, events, k), events[k], j, part) || held(At(g, events, k)) ==>
                held(Step(g, At(g, events, k), events[k]))
    {
      AtNext(g, events, k);
      AtDistinct(g, events, k);
      AtAnswered(g, events, k);
      PartStep(g, At(g, events, k), events[k], j, part);
    }
    if held(Run(g, START, events)) {
      var k := Begins(g, events, held, |events|);
    } else if k :| 0 <= k < |events| && SetBy(g, At(g, events, k), events[k], j, part) {
      Lasts(g, events, held, k + 1);
      assert false;
    }
  }

  // ------------------------------------------- the prefix and the last message

  /** The first body: messages only, the last of them the user's prompt. */
  predicate FirstBody(s: State, e: Event, input: seq<Entry>) {
    && e == Body(Some(input)) && s.stage.Reading? && s.initial.None? && s.calls == [] && |input| <= MAX_INPUT
    && input != [] && (forall i :: 0 <= i < |input| ==> input[i].Message?) && input[|input| - 1].userPrompt
  }

  lemma PrefixStep(g: Config, s: State, e: Event, input: seq<Entry>)
    ensures s.initial != Some(input) && Step(g, s, e).initial == Some(input) ==> FirstBody(s, e, input)
    ensures FirstBody(s, e, input) || s.initial == Some(input) ==> Step(g, s, e).initial == Some(input)
  {
    hide Claimable, Completable, Observable, Find, Bounded, CheckedId, HistoryAt, Receive;
    if e.Respond? {
      ReceivePrefix(g, s, e.outcome);
    }
  }

  lemma ReceivePrefix(g: Config, s: State, outcome: Outcome)
    ensures Receive(g, s, outcome).initial == s.initial
  {
    hide Find, Bounded, CheckedId;
  }

  /** The prefix every later request must repeat is the first body. */
  lemma PrefixIsFirstBody(g: Config, events: seq<Event>, input: seq<Entry>)
    ensures Run(g, START, events).initial == Some(input)
            <==> exists k :: 0 <= k < |events| && FirstBody(At(g, events, k), events[k], input)
  {
    hide Step, FirstBody, At, Run;
    AtEnd(g, events);
    AtStart(g, events);
    var held := (s: State) => s.initial == Some(input);
    forall k | 0 <= k < |events|
      ensures At(g, events, k + 1) == Step(g, At(g, events, k), events[k])
      ensures !held(At(g, events, k)) && held(At(g, events, k + 1)) ==> FirstBody(At(g, events, k), events[k], input)
      ensures FirstBody(At(g, events, k), events[k], input) || held(At(g, events, k)) ==>
                held(Step(g, At(g, events, k), events[k]))
    {
      AtNext(g, events, k);
      PrefixStep(g, At(g, events, k), events[k], input);
    }
    if held(Run(g, START, events)) {
      var k := Begins(g, events, held, |events|);
    } else if k :| 0 <= k < |events| && FirstBody(At(g, events, k), events[k], input) {
      Lasts(g, events, held, k + 1);
      assert false;
    }
  }

  lemma ObservedStep(g: Config, s: State, e: Event)
    ensures !s.finalObserved && Step(g, s, e).finalObserved ==> e.ObserveFinal? && s.finalText == Some(e.text)
    ensures s.finalObserved || (e.ObserveFinal? && s.finalText == Some(e.text)) ==> Step(g, s, e).finalObserved
  {
    hide Claimable, Completable, Observable, Find, Bounded, CheckedId, HistoryAt, Initial;
  }

  /** The final message was observed exactly if it came with the final text. */
  lemma FinalIsObserved(g: Config, events: seq<Event>)
    ensures Run(g, START, events).finalObserved
            <==> exists k :: 0 <= k < |events| && events[k].ObserveFinal? &&
                             At(g, events, k).finalText == Some(events[k].text)
  {
    hide Step, At, Run;
    AtEnd(g, events);
    AtStart(g, events);
    var held := (s: State) => s.finalObserved;
    forall k | 0 <= k < |events|
      ensures At(g, events, k + 1) == Step(g, At(g, events, k), events[k])
      ensures !held(At(g, events, k)) && held(At(g, events, k + 1)) ==>
                events[k].ObserveFinal? && At(g, events, k).finalText == Some(events[k].text)
      ensures held(At(g, events, k)) ||
              (events[k].ObserveFinal? && At(g, events, k).finalText == Some(events[k].text)) ==>
                held(Step(g, At(g, events, k), events[k]))
    {
      AtNext(g, events, k);
      ObservedStep(g, At(g, events, k), events[k]);
    }
    if held(Run(g, START, events)) {
      var k := Begins(g, events, held, |events|);
    } else if k :| 0 <= k < |events| && events[k].ObserveFinal? && At(g, events, k).finalText == Some(events[k].text) {
      Lasts(g, events, held, k + 1);
      assert false;
    }
  }

  lemma TextStays(g: Config, events: seq<Event>, k: nat, x: Text)
    requires k <= |events| && At(g, events, k).finalText == Some(x)
    ensures Run(g, START, events).finalText == Some(x)
  {
    hide Step, At, Run, AnswersFinal;
    var held := (s: State) => s.finalText == Some(x);
    forall i | 0 <= i < |events| && held(At(g, events, i)) ensures held(Step(g, At(g, events, i), events[i])) {
      FinalTextStep(g, At(g, events, i), events[i], x);
    }
    Lasts(g, events, held, k);
  }

  /** A call whose completion was observed had been answered with what was observed. */
  lemma CompletedIsAnswered(g: Config, events: seq<Event>, j: nat)
    requires j < |Run(g, START, events).calls| && Run(g, START, events).calls[j].completed
    ensures var c := Run(g, START, events).calls[j];
            c.output.Some? && c.success.Some? && Complete(c.id, c.output.value, c.success.value) in events
  {
    hide Step, At, Run;
    var c := Run(g, START, events).calls[j];
    PartsAreSet(g, events, j, Completed);
    assert CallHolds(Run(g, START, events), j, Completed);
    var k :| 0 <= k < |events| && SetBy(g, At(g, events, k), events[k], j, Completed);
    var d := At(g, events, k).calls[j];
    assert CallHolds(At(g, events, k), j, Output(d.output.value, d.success.value));
    OutputStays(g, events, k, j, d.output.value, d.success.value);
    PartsAreSet(g, events, j, Output(c.output.value, c.success.value));
    var m :| 0 <= m < |events| && SetBy(g, At(g, events, m), events[m], j, Output(c.output.value, c.success.value));
    CallsGrow(g, events, m, j);
    assert events[m] == Complete(c.id, c.output.value, c.success.value);
  }

  lemma OutputStays(g: Config, events: seq<Event>, k: nat, j: nat, text: Text, success: bool)
    requires k <= |events| && CallHolds(At(g, events, k), j, Output(text, success))
    ensures CallHolds(Run(g, START, events), j, Output(text, success))
  {
    hide Step, At, Run, Distinct, Answered, SetBy;
    var held := (s: State) => CallHolds(s, j, Output(text, success));
    forall i | 0 <= i < |events| && held(At(g, events, i)) ensures held(Step(g, At(g, events, i), events[i])) {
      AtDistinct(g, events, i);
      AtAnswered(g, events, i);
      PartStep(g, At(g, events, i), events[i], j, Output(text, success));
    }
    Lasts(g, events, held, k);
  }

  // ------------------------------------------------- the turn that succeeds

  /** The prefix again, with the call and the output handed back. */
  function FollowUp(p: Params, initial: seq<Entry>, first: Outcome, output: Text): seq<Entry>
    requires first.ToolCall?
  {
    initial + [CallItem(p.callId, p.tool, first.raw), OutputItem(p.callId, output, None, None)]
  }

  /** The events of a turn with one tool call, in the order they come. */
  function TurnWithOneCall(p: Params, initial: seq<Entry>, first: Outcome, output: Text, success: bool,
      last: Outcome): seq<Event>
    requires first.ToolCall? && last.FinalText?
  {
    [Bind(p.threadId, p.turnId), Request(true), Body(Some(initial)), Forward(true), Respond(first)]
    + [ObserveTool(p, false, false, []), Claim(p), Complete(p.callId, output, success), WriteSettles(p.callId, true),
       ObserveTool(p, true, success, output)]
    + [Request(true), Body(Some(FollowUp(p, initial, first, output))),
       Check, Check, Forward(true)]
    + [Respond(last), ObserveFinal(last.text)]
  }

  /** Everything in it is as the relay asks. */
  predicate InOrder(g: Config, p: Params, initial: seq<Entry>, first: Outcome, output: Text, last: Outcome) {
    && CheckedId(p.threadId) && CheckedId(p.turnId) && CheckedId(p.callId) && !p.namespaced && g.maxRequests >= 2
    && g.offered(p.tool) && Initial(initial) && |initial| + 2 <= MAX_INPUT && Bounded(output, MAX_TEXT, true)
    && first.ToolCall? && first.callId == p.callId && first.name == p.tool && first.arguments == Some(p.arguments)
    && first.usage && CheckedId(first.responseId) && Bounded(first.raw, MAX_ARGUMENTS, false)
    && last.FinalText? && last.readable && last.usage
    && CheckedId(last.responseId) && last.responseId != first.responseId
    && Bounded(last.text, g.maxFinal, false)
  }

  lemma {:induction false} RunSplit(g: Config, s: State, a: seq<Event>, b: seq<Event>)
    ensures Run(g, s, a + b) == Run(g, Run(g, s, a), b)
    decreases |a|
  {
    hide Step;
    if a == [] {
      assert a + b == b;
    } else {
      assert (a + b)[1..] == a[1..] + b;
      RunSplit(g, Step(g, s, a[0]), a[1..], b);
    }
  }

  lemma RunFive(g: Config, s: State, a: Event, b: Event, c: Event, d: Event, e: Event)
    ensures Run(g, s, [a, b, c, d, e]) == Step(g, Step(g, Step(g, Step(g, Step(g, s, a), b), c), d), e)
  {
    hide Step, Run;
    RunMore(g, s, [a, b, c, d], e);
    RunMore(g, s, [a, b, c], d);
    RunMore(g, s, [a, b], c);
    RunMore(g, s, [a], b);
    RunMore(g, s, [], a);
    assert [a, b, c, d] + [e] == [a, b, c, d, e] && [a, b, c] + [d] == [a, b, c, d] && [a, b] + [c] == [a, b, c];
    assert [a] + [b] == [a, b] && [] + [a] == [a];
    assert Run(g, s, []) == s by {
      RunNothing(g, s);
    }
  }

  lemma RunNothing(g: Config, s: State)
    ensures Run(g, s, []) == s
  {
  }

  /** The relay once the call is issued, and once it is answered and observed. */
  function Issued(p: Params, initial: seq<Entry>, first: Outcome): State
    requires first.ToolCall?
  {
    State(Bound(p.threadId, p.turnId), 1, 0, false, false, Some(initial),
          [Call(p.callId, p.tool, p.arguments, first.raw, false, false, false, None, None, Unwritten, false, None)],
          {first.responseId}, None, false, Quiet, [initial], [])
  }

  function Called(p: Params, initial: seq<Entry>, first: Outcome, output: Text, success: bool,
      stamp: Option<Stamp>): State
    requires first.ToolCall?
  {
    Issued(p, initial, first).(
      calls := [Call(p.callId, p.tool, p.arguments, first.raw, true, true, true, Some(output), Some(success), Written,
                     stamp.Some?, stamp)],
      claims := [p.callId])
  }

  lemma TurnIssues(g: Config, p: Params, initial: seq<Entry>, first: Outcome, output: Text, last: Outcome)
    requires InOrder(g, p, initial, first, output, last)
    ensures Run(g, START, [Bind(p.threadId, p.turnId), Request(true), Body(Some(initial)), Forward(true),
                           Respond(first)])
         == Issued(p, initial, first)
  {
    hide CheckedId, Bounded, Run, Find, Initial;
    RunFive(g, START, Bind(p.threadId, p.turnId), Request(true), Body(Some(initial)), Forward(true), Respond(first));
    var s1 := START.(bound := Bound(p.threadId, p.turnId));
    var s2 := s1.(requests := 1, active := 1, stage := Reading);
    var s3 := s2.(initial := Some(initial), stage := Checked(initial));
    var s4 := s3.(stage := Upstream, forwarded := [initial]);
    assert Step(g, START, Bind(p.threadId, p.turnId)) == s1;
    assert Step(g, s1, Request(true)) == s2;
    assert Step(g, s2, Body(Some(initial))) == s3;
    assert Step(g, s3, Forward(true)) == s4;
    FindKnown(s4.calls, p.callId);
    assert {} + {first.responseId} == {first.responseId};
  }

  lemma CallGoesThrough(g: Config, p: Params, initial: seq<Entry>, first: Outcome, output: Text, success: bool,
      last: Outcome)
    requires InOrder(g, p, initial, first, output, last)
    ensures Run(g, Issued(p, initial, first),
                [ObserveTool(p, false, false, []), Claim(p), Complete(p.callId, output, success),
                 WriteSettles(p.callId, true), ObserveTool(p, true, success, output)])
         == Called(p, initial, first, output, success, None)
  {
    hide CheckedId, Bounded, Run, Initial, Find;
    RunFive(g, Issued(p, initial, first), ObserveTool(p, false, false, []), Claim(p),
            Complete(p.callId, output, success), WriteSettles(p.callId, true), ObserveTool(p, true, success, output));
    var s0 := Issued(p, initial, first);
    var c0 := s0.calls[0];
    var c1 := c0.(started := true);
    var c2 := c1.(claimed := true);
    var c3 := c2.(output := Some(output), success := Some(success), write := Writing);
    var c4 := c3.(write := Written);
    var c5 := c4.(completed := true);
    var s2 := s0.(calls := [c2], claims := [p.callId]);
    FindFirst([c0]);
    FindFirst([c1]);
    FindFirst([c2]);
    FindFirst([c3]);
    FindFirst([c4]);
    assert Step(g, s0, ObserveTool(p, false, false, [])) == s0.(calls := [c1]);
    assert Step(g, s0.(calls := [c1]), Claim(p)) == s2;
    assert Step(g, s2, Complete(p.callId, output, success)) == s2.(calls := [c3]);
    assert Step(g, s2.(calls := [c3]), WriteSettles(p.callId, true)) == s2.(calls := [c4]);
    assert Step(g, s2.(calls := [c4]), ObserveTool(p, true, success, output)) == s2.(calls := [c5]);
  }

  lemma FindFirst(calls: seq<Call>)
    requires calls != []
    ensures Find(calls, calls[0].id) == 0
  {
  }

  lemma HistoryGoesThrough(g: Config, p: Params, initial: seq<Entry>, first: Outcome, output: Text, success: bool,
      last: Outcome)
    requires InOrder(g, p, initial, first, output, last)
    ensures Run(g, Called(p, initial, first, output, success, None),
                [Request(true), Body(Some(FollowUp(p, initial, first, output))), Check, Check, Forward(true)])
         == Called(p, initial, first, output, success, Some(Stamp(None, None)))
            .(requests := 2, active := 1, stage := Upstream,
              forwarded := [initial, FollowUp(p, initial, first, output)])
  {
    hide CheckedId, Bounded, Run, Initial;
    var input := FollowUp(p, initial, first, output);
    RunFive(g, Called(p, initial, first, output, success, None), Request(true), Body(Some(input)), Check, Check,
            Forward(true));
    var s0 := Called(p, initial, first, output, success, None);
    var s1 := s0.(requests := 2, active := 1, stage := Reading);
    var s2 := s1.(stage := Checking(input, 0));
    var s3 := Called(p, initial, first, output, success, Some(Stamp(None, None))).(requests := 2, active := 1,
        stage := Checking(input, 1));
    assert Step(g, s0, Request(true)) == s1;
    assert initial <= input && |input| == |initial| + 2;
    assert Step(g, s1, Body(Some(input))) == s2;
    assert HistoryAt(input, |initial|, s2.calls[0]);
    assert Step(g, s2, Check) == s3;
    assert Step(g, s3, Check) == s3.(stage := Checked(input));
    assert [initial] + [input] == [initial, input];
  }

  /** A turn in which everything is as asked goes through: its call is answered,
      its history forwarded and its final text held and observed. */
  lemma TurnGoesThrough(g: Config, p: Params, initial: seq<Entry>, first: Outcome, output: Text, success: bool,
      last: Outcome)
    requires InOrder(g, p, initial, first, output, last)
    ensures Run(g, START, TurnWithOneCall(p, initial, first, output, success, last))
         == Called(p, initial, first, output, success, Some(Stamp(None, None)))
            .(requests := 2, forwarded := [initial, FollowUp(p, initial, first, output)],
              responses := {first.responseId, last.responseId},
              finalText := Some(last.text), finalObserved := true)
  {
    hide CheckedId, Bounded, Run, Initial, Step, Called, Issued;
    var input := FollowUp(p, initial, first, output);
    var a := [Bind(p.threadId, p.turnId), Request(true), Body(Some(initial)), Forward(true), Respond(first)];
    var b := [ObserveTool(p, false, false, []), Claim(p), Complete(p.callId, output, success),
              WriteSettles(p.callId, true), ObserveTool(p, true, success, output)];
    var c := [Request(true), Body(Some(input)), Check, Check, Forward(true)];
    var d := [Respond(last), ObserveFinal(last.text)];
    RunSplit(g, START, a, b);
    RunSplit(g, START, a + b, c);
    RunSplit(g, START, a + b + c, d);
    TurnIssues(g, p, initial, first, output, last);
    CallGoesThrough(g, p, initial, first, output, success, last);
    HistoryGoesThrough(g, p, initial, first, output, success, last);
    AnswerGoesThrough(g, p, initial, first, output, success, last, Run(g, START, a + b + c));
  }

  lemma AnswerGoesThrough(g: Config, p: Params, initial: seq<Entry>, first: Outcome, output: Text, success: bool,
      last: Outcome, s: State)
    requires InOrder(g, p, initial, first, output, last)
    requires s == Called(p, initial, first, output, success, Some(Stamp(None, None)))
                  .(requests := 2, active := 1, stage := Upstream, forwarded := s.forwarded)
    ensures Run(g, s, [Respond(last), ObserveFinal(last.text)])
         == Called(p, initial, first, output, success, Some(Stamp(None, None)))
            .(requests := 2, forwarded := s.forwarded, responses := {first.responseId, last.responseId},
              finalText := Some(last.text), finalObserved := true)
  {
    hide CheckedId, Bounded, Run, Initial;
    RunMore(g, s, [Respond(last)], ObserveFinal(last.text));
    RunMore(g, s, [], Respond(last));
    RunNothing(g, s);
    assert [Respond(last)] + [ObserveFinal(last.text)] == [Respond(last), ObserveFinal(last.text)];
    assert [] + [Respond(last)] == [Respond(last)];
    assert {first.responseId} + {last.responseId} == {first.responseId, last.responseId};
    var t := s.(finalText := Some(last.text), responses := {first.responseId, last.responseId}, stage := Quiet,
                active := 0);
    assert Step(g, s, Respond(last)) == t;
  }
}

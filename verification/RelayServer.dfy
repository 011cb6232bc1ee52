/** The relay as the program keeps it: state changed in place by the request
    handler and by the callbacks, each proved to be one event of the model. */
module RelayServer {
  import opened Texts
  import opened Canonical
  import opened Relay
  import opened RelayHistory

  class LoopbackRelay {
    const config: Config
    var bound: Binding
    var requests: nat
    var active: nat
    var failed: bool
    var closed: bool
    var initial: Option<seq<Entry>>
    var calls: seq<Call>
    var responses: set<Text>
    var finalText: Option<Text>
    var finalObserved: bool
    var stage: Stage
    ghost var forwarded: seq<seq<Entry>>
    ghost var claims: seq<Text>
    /** Everything that has happened to this relay. */
    ghost var events: seq<Event>

    constructor (config: Config)
      ensures this.config == config && Valid() && Model() == START && events == []
    {
      this.config := config;
      bound, requests, active, failed, closed, initial, calls := Unbound, 0, 0, false, false, None, [];
      responses, finalText, finalObserved, stage, forwarded, claims := {}, None, false, Quiet, [], [];
      events := [];
      new;
      StartFine();
    }

    ghost function Model(): State
      reads this
    {
      State(bound, requests, active, failed, closed, initial, calls, responses, finalText, finalObserved, stage,
          forwarded, claims)
    }

    ghost predicate Valid()
      reads this
    {
      Inv(Model()) && Model() == Run(config, START, events)
    }

    /** The catch and finally of the request handler. */
    method Fail()
      modifies this`failed, this`stage, this`active
      ensures Model() == Reject(old(Model()))
    {
      failed := true;
      stage := Quiet;
      if active > 0 {
        active := active - 1;
      }
    }

    method BindTurn(threadId: Text, turnId: Text) returns (accepted: bool)
      requires Valid()
      modifies this
      ensures Valid() && Model() == Step(config, old(Model()), Bind(threadId, turnId))
      ensures events == old(events) + [Bind(threadId, turnId)]
      ensures accepted <==> old(bound).Unbound? && bound == Bound(threadId, turnId)
    {
      hide Inv, Run;
      StepKeeps(config, Model(), Bind(threadId, turnId));
      RunMore(config, START, events, Bind(threadId, turnId));
      events := events + [Bind(threadId, turnId)];
      accepted := false;
      if bound.Unbound? && CheckedId(threadId) {
        bound := ThreadOnly;
        if CheckedId(turnId) {
          bound := Bound(threadId, turnId);
          accepted := true;
        }
      }
    }

    method OnRequest(admitted: bool)
      requires Valid()
      modifies this
      ensures Valid() && Model() == Step(config, old(Model()), Request(admitted))
      ensures events == old(events) + [Request(admitted)]
    {
      hide Inv, Run;
      StepKeeps(config, Model(), Request(admitted));
      RunMore(config, START, events, Request(admitted));
      events := events + [Request(admitted)];
      active := active + 1;
      var allowed := !closed && !failed && active == 1;
      if allowed {
        requests := requests + 1;
        allowed := requests <= config.maxRequests && finalText.None? && admitted;
      }
      if allowed {
        stage := Reading;
      } else {
        failed := true;
        active := active - 1;
      }
    }

    method OnBody(input: Option<seq<Entry>>)
      requires Valid()
      modifies this
      ensures Valid() && Model() == Step(config, old(Model()), Body(input))
      ensures events == old(events) + [Body(input)]
    {
      hide Inv, Run, Initial;
      StepKeeps(config, Model(), Body(input));
      RunMore(config, START, events, Body(input));
      events := events + [Body(input)];
      if !stage.Reading? {
        return;
      }
      if input.None? || |input.value| > MAX_INPUT {
        Fail();
      } else if initial.None? {
        if calls == [] && Initial(input.value) {
          initial, stage := input, Checked(input.value);
        } else {
          Fail();
        }
      } else if initial.value <= input.value && |input.value| - |initial.value| == 2 * |calls| && calls != [] {
        stage := Checking(input.value, 0);
      } else {
        Fail();
      }
    }

    /** One turn of the loop over the calls; its write has settled. */
    method OnCheck()
      requires Valid()
      modifies this
      ensures Valid() && Model() == Step(config, old(Model()), Check)
      ensures events == old(events) + [Check]
    {
      hide Inv, Run, HistoryAt;
      StepKeeps(config, Model(), Check);
      RunMore(config, START, events, Check);
      events := events + [Check];
      if !stage.Checking? || initial.None? {
        return;
      }
      var input, index := stage.input, stage.index;
      if index >= |calls| {
        stage := Checked(input);
        return;
      }
      var call, at := calls[index], |initial.value| + 2 * index;
      if failed || closed || !call.claimed || !call.write.Written? || !HistoryAt(input, at, call) {
        Fail();
        return;
      }
      PairFits(input, at, call);
      var stamp := Stamp(input[at + 1].itemId, input[at + 1].toolName);
      if call.stamp.Some? && call.stamp.value != stamp {
        Fail();
        return;
      }
      calls := calls[index := call.(stamp := Some(stamp), observed := true)];
      stage := Checking(input, index + 1);
    }

    lemma PairFits(input: seq<Entry>, at: nat, call: Call)
      requires HistoryAt(input, at, call)
      ensures at + 1 < |input| && input[at + 1].OutputItem?
    {
    }

    method OnForward(ok: bool)
      requires Valid()
      modifies this
      ensures Valid() && Model() == Step(config, old(Model()), Forward(ok))
      ensures events == old(events) + [Forward(ok)]
    {
      hide Inv, Run;
      StepKeeps(config, Model(), Forward(ok));
      RunMore(config, START, events, Forward(ok));
      events := events + [Forward(ok)];
      if !stage.Checked? {
        return;
      }
      if ok && bound.Bound? && !failed && !closed {
        forwarded := forwarded + [stage.input];
        stage := Upstream;
      } else {
        Fail();
      }
    }

    /** The buffered response: validated whole before anything is recorded. */
    method OnResponse(outcome: Outcome)
      requires Valid()
      modifies this
      ensures Valid() && Model() == Step(config, old(Model()), Respond(outcome))
      ensures events == old(events) + [Respond(outcome)]
    {
      hide Inv, Run, Receive;
      StepKeeps(config, Model(), Respond(outcome));
      RunMore(config, START, events, Respond(outcome));
      events := events + [Respond(outcome)];
      if !stage.Upstream? {
        return;
      }
      match outcome
      case Broken =>
        BrokenRejects();
        Fail();
      case ToolCall(_, _, _, _, _, _) => OnCallIssued(outcome);
      case FinalText(_, _, _, _) => OnFinalText(outcome);
    }

    lemma BrokenRejects()
      ensures Receive(config, Model(), Broken) == Reject(Model())
    {
    }

    method OnCallIssued(outcome: Outcome)
      requires outcome.ToolCall?
      modifies this`failed, this`stage, this`active, this`calls, this`responses
      ensures Model() == Receive(config, old(Model()), outcome)
    {
      hide Bounded, CheckedId, Find;
      if outcome.responseId in responses || !CheckedId(outcome.responseId) || !CheckedId(outcome.callId) ||
          !config.offered(outcome.name)
        || !Bounded(outcome.raw, Relay.MAX_ARGUMENTS, false) || Find(calls, outcome.callId) < |calls|
        || finalText.Some? || |calls| + 1 >= config.maxRequests || outcome.arguments.None?
      {
        Fail();
        return;
      }
      calls := calls + [Call(outcome.callId, outcome.name, outcome.arguments.value, outcome.raw,
                             false, false, false, None, None, Unwritten, false, None)];
      responses := responses + {outcome.responseId};
      Conclude(outcome.usage);
    }

    method OnFinalText(outcome: Outcome)
      requires outcome.FinalText?
      modifies this`failed, this`stage, this`active, this`finalText, this`responses
      ensures Model() == Receive(config, old(Model()), outcome)
    {
      hide Bounded, CheckedId;
      if outcome.responseId in responses || !CheckedId(outcome.responseId) || finalText.Some? ||
          !Bounded(outcome.text, config.maxFinal, false) {
        Fail();
        return;
      }
      finalText := Some(outcome.text);
      responses := responses + {outcome.responseId};
      Conclude(outcome.readable && outcome.usage);
    }

    /** The end of a handled request. */
    method Conclude(fine: bool)
      modifies this`failed, this`stage, this`active
      ensures Model() == if fine then old(Model()).(stage := Quiet, active := 0) else Reject(old(Model()))
    {
      failed := failed || !fine;
      stage := Quiet;
      active := if fine || active == 0 then 0 else active - 1;
    }

    method ClaimCall(p: Params) returns (arguments: Option<Meaning>)
      requires Valid()
      modifies this
      ensures Valid() && Model() == Step(config, old(Model()), Claim(p))
      ensures events == old(events) + [Claim(p)]
      ensures arguments.Some? ==> arguments.value == p.arguments && claims == old(claims) + [p.callId]
      ensures arguments.None? ==> Model() == old(Model())
      ensures arguments.Some? <==>
                && !failed && !closed && bound == Bound(p.threadId, p.turnId) && !p.namespaced
                && exists c ::
                     c in old(calls) && c.id == p.callId && !c.claimed && c.tool == p.tool && c.arguments == p.arguments
    {
      hide Inv, Run, Find;
      CallNamed(Model(), p.callId);
      StepKeeps(config, Model(), Claim(p));
      RunMore(config, START, events, Claim(p));
      events := events + [Claim(p)];
      var k := Find(calls, p.callId);
      if failed || closed || bound != Bound(p.threadId, p.turnId) || k == |calls| {
        return None;
      }
      var call := calls[k];
      if call.claimed || p.tool != call.tool || p.namespaced || p.arguments != call.arguments {
        return None;
      }
      calls := calls[k := call.(claimed := true)];
      claims := claims + [p.callId];
      arguments := Some(call.arguments);
    }

    /** The first answer to a claimed call is accepted, if it is within the bound. */
    method CompleteCall(id: Text, text: Text, success: bool) returns (accepted: bool)
      requires Valid()
      modifies this
      ensures Valid() && Model() == Step(config, old(Model()), Complete(id, text, success))
      ensures events == old(events) + [Complete(id, text, success)]
      ensures accepted <==>
                && Bounded(text, 524_288, true)
                && exists c :: c in old(calls) && c.id == id && c.claimed && c.write.Unwritten?
    {
      hide Inv, Run, Find, Bounded;
      StepKeeps(config, Model(), Complete(id, text, success));
      RunMore(config, START, events, Complete(id, text, success));
      events := events + [Complete(id, text, success)];
      CallNamed(Model(), id);
      var k := Find(calls, id);
      accepted := false;
      if k < |calls| && calls[k].claimed && calls[k].write.Unwritten? && Bounded(text, MAX_TEXT, true) {
        calls := calls[k := calls[k].(output := Some(text), success := Some(success), write := Writing)];
        accepted := true;
      }
    }

    /** The calls have different ids, so an id names at most one. */
    static lemma CallNamed(s: State, id: Text)
      requires Inv(s)
      ensures Find(s.calls, id) < |s.calls| ==> s.calls[Find(s.calls, id)] in s.calls
      ensures forall c :: c in s.calls && c.id == id ==>
                Find(s.calls, id) < |s.calls| && c == s.calls[Find(s.calls, id)]
    {
      hide StageInv, CountInv;
      forall c | c in s.calls && c.id == id
        ensures Find(s.calls, id) < |s.calls| && c == s.calls[Find(s.calls, id)]
      {
        var j :| 0 <= j < |s.calls| && s.calls[j] == c;
      }
    }

    method OnWriteSettled(id: Text, ok: bool)
      requires Valid()
      modifies this
      ensures Valid() && Model() == Step(config, old(Model()), WriteSettles(id, ok))
      ensures events == old(events) + [WriteSettles(id, ok)]
    {
      hide Inv, Run, Find;
      StepKeeps(config, Model(), WriteSettles(id, ok));
      RunMore(config, START, events, WriteSettles(id, ok));
      events := events + [WriteSettles(id, ok)];
      var k := Find(calls, id);
      if k < |calls| && calls[k].write.Writing? {
        calls := calls[k := calls[k].(write := if ok then Written else WriteFailed)];
      }
    }

    /** The item that begins a call is accepted once, and after it the one that
        completes it with the call's own outcome, once. */
    method OnToolItem(p: Params, completed: bool, successful: bool, content: Text) returns (accepted: bool)
      requires Valid()
      modifies this
      ensures Valid() && Model() == Step(config, old(Model()), ObserveTool(p, completed, successful, content))
      ensures events == old(events) + [ObserveTool(p, completed, successful, content)]
      ensures accepted <==>
                && bound == Bound(p.threadId, p.turnId) && !p.namespaced
                && exists c :: c in old(calls) && c.id == p.callId && c.tool == p.tool && c.arguments == p.arguments &&
                     if completed then c.started && c.claimed && !c.completed && c.success == Some(successful) &&
                                       c.output == Some(content)
                     else !c.started
    {
      hide Inv, Run, Find;
      StepKeeps(config, Model(), ObserveTool(p, completed, successful, content));
      RunMore(config, START, events, ObserveTool(p, completed, successful, content));
      events := events + [ObserveTool(p, completed, successful, content)];
      CallNamed(Model(), p.callId);
      var k := Find(calls, p.callId);
      accepted := false;
      if bound != Bound(p.threadId, p.turnId) || k == |calls| {
        return;
      }
      var call := calls[k];
      if p.tool != call.tool || p.namespaced || p.arguments != call.arguments {
        return;
      }
      if !completed {
        if !call.started {
          calls := calls[k := call.(started := true)];
          accepted := true;
        }
      } else if call.started && call.claimed && !call.completed && call.success == Some(successful) &&
          call.output == Some(content) {
        calls := calls[k := call.(completed := true)];
        accepted := true;
      }
    }

    method OnFinalMessage(text: Text) returns (accepted: bool)
      requires Valid()
      modifies this
      ensures Valid() && Model() == Step(config, old(Model()), ObserveFinal(text))
      ensures events == old(events) + [ObserveFinal(text)]
      ensures accepted <==> !old(finalObserved) && finalText == Some(text)
    {
      hide Inv, Run;
      StepKeeps(config, Model(), ObserveFinal(text));
      RunMore(config, START, events, ObserveFinal(text));
      events := events + [ObserveFinal(text)];
      accepted := !finalObserved && finalText == Some(text);
      if accepted {
        finalObserved := true;
      }
    }

    method Shutdown()
      requires Valid()
      modifies this
      ensures Valid() && Model() == Step(config, old(Model()), Close)
      ensures events == old(events) + [Close]
    {
      hide Inv, Run;
      StepKeeps(config, Model(), Close);
      RunMore(config, START, events, Close);
      events := events + [Close];
      closed := true;
    }

    /** What a receipt shows while nothing has failed and no request is in flight. */
    method Receipt() returns (made: nat, issued: nat)
      requires Valid()
      ensures made == requests && issued == |calls|
      ensures !failed && active == 0 ==> made == issued + if finalText.Some? then 1 else 0
      ensures !failed && finalText.Some? ==> AllObserved(calls)
    {
      hide Carries, HistoryAt, ClaimInv, StageInv;
      made, issued := requests, |calls|;
    }

    /** The result is released only for a complete round trip. */
    method Result() returns (text: Option<Text>)
      requires Valid()
      ensures text.Some? ==> text == finalText && requests == |calls| + 1 && AllObserved(calls)
      ensures text.Some? ==> forall j :: 0 <= j < |calls| ==> calls[j].claimed && calls[j].started && calls[j].completed
      ensures text.Some? ==>
                && (exists k :: 0 <= k < |events| && AnswersFinal(config, At(config, events, k), events[k], text.value))
                && ObserveFinal(text.value) in events
      ensures text.Some? ==> forall j :: 0 <= j < |calls| ==>
                && calls[j].output.Some? && calls[j].success.Some?
                && Complete(calls[j].id, calls[j].output.value, calls[j].success.value) in events
    {
      hide Carries, HistoryAt;
      var whole := forall j :: 0 <= j < |calls| ==>
        calls[j].claimed && calls[j].started && calls[j].completed && calls[j].observed;
      if failed || !finalObserved || finalText.None? || !whole {
        return None;
      }
      text := finalText;
      ResultIsOnRecord(config, events);
    }

    /** What a released result rests on among the events. */
    static lemma ResultIsOnRecord(g: Config, events: seq<Event>)
      requires var s := Run(g, START, events);
               Inv(s) && s.finalObserved && s.finalText.Some? && forall j :: 0 <= j < |s.calls| ==> s.calls[j].completed
      ensures var s := Run(g, START, events);
              && (exists k :: 0 <= k < |events| && AnswersFinal(g, At(g, events, k), events[k], s.finalText.value))
              && ObserveFinal(s.finalText.value) in events
              && forall j :: 0 <= j < |s.calls| ==>
                   && s.calls[j].output.Some? && s.calls[j].success.Some?
                   && Complete(s.calls[j].id, s.calls[j].output.value, s.calls[j].success.value) in events
    {
      hide Inv, Run, At, AnswersFinal, Step;
      var s := Run(g, START, events);
      FinalTextIsAnswered(g, events, s.finalText.value);
      FinalIsObserved(g, events);
      var m :| 0 <= m < |events| && events[m].ObserveFinal? && At(g, events, m).finalText == Some(events[m].text);
      TextStays(g, events, m, events[m].text);
      forall j | 0 <= j < |s.calls|
        ensures s.calls[j].output.Some? && s.calls[j].success.Some?
        ensures Complete(s.calls[j].id, s.calls[j].output.value, s.calls[j].success.value) in events
      {
        CompletedIsAnswered(g, events, j);
      }
    }
  }
}

/** Where a session's scope and its answers come from, over all the frames it
    has accepted. */
module SessionHistory {
  import opened Texts
  import Json
  import opened Canonical
  import opened Ledger
  import opened S = Session

  lemma HeardBefore(g: S.Config, frames: seq<Frame>, f: Frame)
    requires HearAll(g, Start(), frames + [f]).Heard?
    ensures HearAll(g, Start(), frames).Heard?
    ensures HearAll(g, Start(), frames + [f]) == Hear(g, HearAll(g, Start(), frames).session, f)
  {
    hide Hear, HearAll;
    HearOneMore(g, Start(), frames, f);
  }

  // ------------------------------------------------------------- answers

  ghost predicate AnswersHold(calls: map<Text, Ledger.Call>, frames: seq<Frame>) {
    forall k :: 0 <= k < |frames| && frames[k].Callback? ==>
      && frames[k].sent && frames[k].call.id in calls
      && calls[frames[k].call.id].response == Some(Due(frames[k].answer)) && calls[frames[k].call.id].written
  }

  /** Written calls stay written. */
  lemma WrittenStays(g: Ledger.Config, s: State, op: Op, id: Text)
    requires id in s.calls && s.calls[id].written
    ensures id in Do(g, s, op).state.calls && Do(g, s, op).state.calls[id].written
  {
    hide Bounded, Named, CanonicalText, ReadBack, SameCall, Reports, Identifier;
  }

  /** Whatever a frame does to the ledger, it does by operations of the ledger. */
  lemma CallsKept(g: S.Config, s: S.Session, f: Frame, id: Text)
    requires Hear(g, s, f).Heard? && id in s.ledger.calls
    requires s.ledger.calls[id].response.Some? && s.ledger.calls[id].written
    ensures var t := Hear(g, s, f).session.ledger;
            id in t.calls && t.calls[id].response == s.ledger.calls[id].response && t.calls[id].written
  {
    hide Do, Bounded, Identifier;
    match f
    case Answer(_, result) =>
      if s.threadId.Some? && result.TurnResult? {
        OneKept(g.ledger, s.ledger, Op.Bind(s.threadId.value, result.turnId), id);
      }
    case Callback(_, call, answer, _) =>
      var claimed := Do(g.ledger, s.ledger, TakeCall(call)).state;
      var success := answer.Some? && Bounded(answer.value, MAX_RESPONSE, false);
      var text := if success then answer.value else DENIED;
      var answered := Do(g.ledger, claimed, Op.Respond(call.id, text, success)).state;
      OneKept(g.ledger, s.ledger, TakeCall(call), id);
      OneKept(g.ledger, claimed, Op.Respond(call.id, text, success), id);
      OneKept(g.ledger, answered, Op.MarkWritten(call.id), id);
    case ItemFrame(completed, _, _, _, content, _) =>
      if content.ToolCall? {
        OneKept(g.ledger, s.ledger, if completed then ObserveEnd(content.call, content.item)
                                    else ObserveStart(content.call, content.item), id);
      }
    case TurnCompleted(_, _, _) => OneKept(g.ledger, s.ledger, Op.Finish, id);
    case _ =>
  }

  lemma OneKept(g: Ledger.Config, s: State, op: Op, id: Text)
    requires id in s.calls && s.calls[id].response.Some? && s.calls[id].written
    ensures var t := Do(g, s, op).state;
            id in t.calls && t.calls[id].response == s.calls[id].response && t.calls[id].written
  {
    hide Do;
    StepSteady(g, s, op);
    WrittenStays(g, s, op, id);
  }

  /** Every callback heard was answered in writing, with what was due, and the
      answer stands in every later state. */
  lemma {:induction false} CallbacksAreAnswered(g: S.Config, frames: seq<Frame>)
    requires HearAll(g, Start(), frames).Heard?
    ensures AnswersHold(HearAll(g, Start(), frames).session.ledger.calls, frames)
    decreases |frames|
  {
    hide Hear, HearAll, Due;
    if frames != [] {
      var front, f := frames[..|frames| - 1], frames[|frames| - 1];
      assert frames == front + [f];
      HeardBefore(g, front, f);
      CallbacksAreAnswered(g, front);
      var s := HearAll(g, Start(), front).session;
      forall k | 0 <= k < |frames| && frames[k].Callback?
        ensures var calls := Hear(g, s, f).session.ledger.calls;
                && frames[k].sent && frames[k].call.id in calls
                && calls[frames[k].call.id].response == Some(Due(frames[k].answer)) && calls[frames[k].call.id].written
      {
        if k < |front| {
          assert front[k] == frames[k];
          CallsKept(g, s, f, frames[k].call.id);
        } else {
          CallAnswers(g, s, f);
        }
      }
    }
  }

  // --------------------------------------------------------------- scope

  /** The scope the session is in, as its ledger has it once the turn is bound. */
  predicate ScopeFits(s: S.Session) {
    && s.ledger.turnId == s.turnId && (s.turnId.Some? ==> s.ledger.threadId == s.threadId && s.threadId.Some?)
    && (s.turnId.None? ==> s.ledger.threadId.None?)
  }

  /** The response that names the thread, or the turn, among the frames. */
  predicate ThreadNamed(frames: seq<Frame>, threadId: Text) {
    exists k :: 0 <= k < |frames| && frames[k].Answer? && frames[k].result == ThreadResult(threadId, true)
  }

  predicate TurnNamed(frames: seq<Frame>, turnId: Text) {
    exists k :: 0 <= k < |frames| && frames[k].Answer? && frames[k].result == TurnResult(turnId)
  }

  /** What a frame says of its scope is the scope of the session. */
  predicate Scoped(s: S.Session, f: Frame) {
    match f
    case ItemFrame(_, threadId, turnId, _, _, _) => s.threadId == Some(threadId) && s.turnId == Some(turnId)
    case TurnCompleted(threadId, turnId, success) => s.threadId == Some(threadId) && s.turnId == Some(turnId) && success
    case Delta(threadId, turnId, _, _, _) => s.threadId == Some(threadId) && s.turnId == Some(turnId)
    case TurnStarted(threadId, turnId) => s.threadId == Some(threadId) && (s.turnId.Some? ==> s.turnId == Some(turnId))
    case Callback(_, call, _, _) => s.threadId == Some(call.threadId) && s.turnId == Some(call.turnId)
    case Notice(allowed) => allowed
    case _ => true
  }

  ghost predicate HistoryInv(s: S.Session, frames: seq<Frame>) {
    && ScopeFits(s) && (s.threadId.Some? ==> ThreadNamed(frames, s.threadId.value))
    && (s.turnId.Some? ==> TurnNamed(frames, s.turnId.value))
    && (forall k :: 0 <= k < |frames| ==> Scoped(s, frames[k]))
    && (s.early.Some? && s.turnId.None? ==> forall k :: 0 <= k < |frames| && frames[k].TurnStarted? ==>
          frames[k].turnId == s.early.value.turnId)
    && (s.early.None? && s.turnId.None? ==> forall k :: 0 <= k < |frames| ==> !frames[k].TurnStarted?)
  }

  /** The ledger's scope changes by a bind alone. */
  lemma ScopeStays(g: Ledger.Config, s: State, op: Op)
    requires !op.Bind?
    ensures var t := Do(g, s, op).state; t.threadId == s.threadId && t.turnId == s.turnId
  {
    hide Bounded, Named, CanonicalText, ReadBack, SameCall, Reports, Identifier;
  }

  lemma GrantedInScope(g: Ledger.Config, s: State, c: Identity)
    requires !Do(g, s, TakeCall(c)).reply.Refused?
    ensures s.threadId == Some(c.threadId) && s.turnId == Some(c.turnId)
  {
    hide Named, CanonicalText, ReadBack, SameCall;
  }

  /** How one frame changes the scope, and what it must say of it. */
  lemma ScopeStep(g: S.Config, s: S.Session, f: Frame)
    requires ScopeFits(s) && Hear(g, s, f).Heard?
    ensures var t := Hear(g, s, f).session;
            && ScopeFits(t) && Scoped(t, f)
            && (s.threadId.Some? ==> t.threadId == s.threadId) && (s.turnId.Some? ==> t.turnId == s.turnId)
            && (s.threadId.None? && t.threadId.Some? ==> f.Answer? && f.result == ThreadResult(t.threadId.value, true))
            && (s.turnId.None? && t.turnId.Some? ==>
                  && f.Answer? && f.result == TurnResult(t.turnId.value)
                  && (s.early.Some? ==> s.early.value.turnId == t.turnId.value))
            && (t.turnId.None? ==> t.early == s.early || (f.TurnStarted? && t.early.Some?
                                     && (s.early.Some? ==> t.early.value.turnId == s.early.value.turnId)))
            && (f.TurnStarted? && t.turnId.None? ==> t.early.Some? && t.early.value.turnId == f.turnId)
  {
    hide Do, Bounded, Identifier, TagOf;
    match f
    case Answer(_, result) =>
      if s.threadId.Some? && result.TurnResult? {
        BindsOnce(g.ledger, s.ledger, s.threadId.value, result.turnId);
      }
    case Callback(_, call, answer, _) =>
      var claimed := Do(g.ledger, s.ledger, TakeCall(call)).state;
      var success := answer.Some? && Bounded(answer.value, MAX_RESPONSE, false);
      var text := if success then answer.value else DENIED;
      ScopeStays(g.ledger, s.ledger, TakeCall(call));
      ScopeStays(g.ledger, claimed, Op.Respond(call.id, text, success));
      ScopeStays(g.ledger, Do(g.ledger, claimed, Op.Respond(call.id, text, success)).state, Op.MarkWritten(call.id));
      GrantedInScope(g.ledger, s.ledger, call);
    case ItemFrame(completed, _, _, _, content, _) =>
      if content.ToolCall? {
        ScopeStays(g.ledger, s.ledger, if completed then ObserveEnd(content.call, content.item)
                                       else ObserveStart(content.call, content.item));
      }
    case TurnCompleted(_, _, _) => ScopeStays(g.ledger, s.ledger, Op.Finish);
    case _ =>
  }

  lemma NamedLater(frames: seq<Frame>, f: Frame, id: Text)
    ensures ThreadNamed(frames, id) || (f.Answer? && f.result == ThreadResult(id, true)) ==>
              ThreadNamed(frames + [f], id)
    ensures TurnNamed(frames, id) || (f.Answer? && f.result == TurnResult(id)) ==> TurnNamed(frames + [f], id)
  {
    var longer := frames + [f];
    assert longer[|frames|] == f;
    assert forall k :: 0 <= k < |frames| ==> longer[k] == frames[k];
  }

  lemma ScopedStays(s: S.Session, t: S.Session, f: Frame)
    requires Scoped(s, f) && (s.threadId.Some? ==> t.threadId == s.threadId)
    requires s.turnId.Some? ==> t.turnId == s.turnId
    requires f.TurnStarted? && s.turnId.None? && t.turnId.Some? ==> t.turnId.value == f.turnId
    ensures Scoped(t, f)
  {
  }

  lemma HistoryStep(g: S.Config, s: S.Session, frames: seq<Frame>, f: Frame)
    requires HistoryInv(s, frames) && Hear(g, s, f).Heard?
    ensures HistoryInv(Hear(g, s, f).session, frames + [f])
  {
    hide Hear, ScopeFits, Scoped, ThreadNamed, TurnNamed;
    var t := Hear(g, s, f).session;
    ScopeStep(g, s, f);
    if t.threadId.Some? {
      NamedLater(frames, f, t.threadId.value);
    }
    if t.turnId.Some? {
      NamedLater(frames, f, t.turnId.value);
    }
    var longer := frames + [f];
    forall k | 0 <= k < |longer| ensures Scoped(t, longer[k]) {
      if k < |frames| {
        assert longer[k] == frames[k];
        ScopedStays(s, t, frames[k]);
      }
    }
  }

  /** The scope of a session is the one its own requests were answered with, its
      ledger has the same, and every frame it ever accepted speaks of it: items,
      callbacks and the completion, and announcements of a turn, even early ones. */
  lemma {:induction false} ScopeIsAnswered(g: S.Config, frames: seq<Frame>)
    requires HearAll(g, Start(), frames).Heard?
    ensures HistoryInv(HearAll(g, Start(), frames).session, frames)
    decreases |frames|
  {
    hide Hear, HearAll, HistoryInv;
    if frames == [] {
      FreshScope(g);
    } else {
      var front, f := frames[..|frames| - 1], frames[|frames| - 1];
      assert frames == front + [f];
      HeardBefore(g, front, f);
      ScopeIsAnswered(g, front);
      HistoryStep(g, HearAll(g, Start(), front).session, front, f);
    }
  }

  lemma FreshScope(g: S.Config)
    ensures HearAll(g, Start(), []) == Heard(Start()) && HistoryInv(Start(), [])
  {
  }

  // ------------------------------------------------ the session that succeeds

  /** One tool call and a final answer, all as the session asks. */
  datatype Script = Script(
    thread: Text, turn: Text, key: Text, call: Identity, answer: Text, item: Text, output: Text)

  function StartItem(): Item {
    Item(InProgress, Json.Null, None, true)
  }

  function EndItem(answer: Text): Item {
    Item(CompletedStatus, Ledger.Content(Response(true, answer)), Some(true), true)
  }

  function Opening(p: Script): seq<Frame> {
    [Frame.Request(ThreadStart), Answer(1, ThreadResult(p.thread, true)), Frame.Request(TurnStart),
     Answer(2, TurnResult(p.turn))]
  }

  function Calling(p: Script): seq<Frame> {
    [ItemFrame(false, p.thread, p.turn, p.call.id, ToolCall(p.call, StartItem()), true),
     Callback(p.key, p.call, Some(p.answer), true),
     ItemFrame(true, p.thread, p.turn, p.call.id, ToolCall(p.call, EndItem(p.answer)), true)]
  }

  function Closing(p: Script): seq<Frame> {
    [ItemFrame(true, p.thread, p.turn, p.item, AgentMessage(FinalAnswer, p.output, true), true),
     TurnCompleted(p.thread, p.turn, true)]
  }

  predicate WellScripted(g: S.Config, p: Script) {
    && Identifier(p.thread) && Identifier(p.turn) && Identifier(p.item) && p.item != p.call.id
    && |p.key| <= MAX_SERVER_KEY && p.call.threadId == p.thread && p.call.turnId == p.turn && Named(g.ledger, p.call)
    && Bounded(p.answer, MAX_RESPONSE, false) && Bounded(p.answer, MAX_RESPONSE, true) && Paired(p.answer)
    && g.ledger.maximumCalls > 0 && Bounded(p.output, g.maxOutput, false) && Bounded(p.output, g.maxOutput, true)
  }

  lemma {:induction false} HearSplit(g: S.Config, s: S.Session, a: seq<Frame>, b: seq<Frame>)
    requires HearAll(g, s, a).Heard?
    ensures HearAll(g, s, a + b) == HearAll(g, HearAll(g, s, a).session, b)
    decreases |b|
  {
    hide Hear;
    if b == [] {
      assert a + b == a;
    } else {
      var front, f := b[..|b| - 1], b[|b| - 1];
      HearSplit(g, s, a, front);
      assert (a + b)[..|a + b| - 1] == a + front;
    }
  }

  lemma HearNext(g: S.Config, s: S.Session, frames: seq<Frame>, f: Frame, t: S.Session, u: S.Session)
    requires HearAll(g, s, frames) == Heard(t) && Hear(g, t, f) == Heard(u)
    ensures HearAll(g, s, frames + [f]) == Heard(u)
  {
    hide Hear, HearAll;
    HearOneMore(g, s, frames, f);
  }

  lemma HearNone(g: S.Config, s: S.Session)
    ensures HearAll(g, s, []) == Heard(s)
  {
  }

  function Bound(p: Script): S.Session {
    S.Session(2, map[], {}, Some(p.thread), Some(p.turn), None, map[],
              State(map[], Some(p.thread), Some(p.turn), false), None, None, false)
  }

  lemma OpeningHeard(g: S.Config, p: Script)
    requires WellScripted(g, p)
    ensures HearAll(g, Start(), Opening(p)) == Heard(Bound(p))
  {
    hide Identifier, Bounded, Named, Paired, HearAll;
    var s1 := Start().(requestId := 1, pending := map[1 := ThreadStart]);
    var s2 := s1.(pending := map[], threadId := Some(p.thread));
    var s3 := s2.(requestId := 2, pending := map[2 := TurnStart]);
    assert map[1 := ThreadStart] - {1} == map[] && map[2 := TurnStart] - {2} == map[];
    HearNone(g, Start());
    HearNext(g, Start(), [], Frame.Request(ThreadStart), Start(), s1);
    HearNext(g, Start(), [] + [Frame.Request(ThreadStart)], Answer(1, ThreadResult(p.thread, true)), s1, s2);
    HearNext(g, Start(), [] + [Frame.Request(ThreadStart)] + [Answer(1, ThreadResult(p.thread, true))],
             Frame.Request(TurnStart), s2, s3);
    BindsOnce(g.ledger, s3.ledger, p.thread, p.turn);
    HearNext(g, Start(), [] + [Frame.Request(ThreadStart)] + [Answer(1, ThreadResult(p.thread, true))]
                         + [Frame.Request(TurnStart)], Answer(2, TurnResult(p.turn)), s3, Bound(p));
    assert [] + [Frame.Request(ThreadStart)] + [Answer(1, ThreadResult(p.thread, true))] + [Frame.Request(TurnStart)]
           + [Answer(2, TurnResult(p.turn))] == Opening(p);
  }

  /** The call as it stands when it is completed. */
  function CompletedCall(g: S.Config, p: Script): Ledger.Call
    requires g.ledger.capabilityName(p.call.tool).Some?
  {
    Ledger.Call(p.call.tool, g.ledger.capabilityName(p.call.tool).value, CanonicalText(p.call.arguments), true,
                Some(Response(true, p.answer)), true, true)
  }

  lemma CallingHeard(g: S.Config, p: Script)
    requires WellScripted(g, p)
    ensures g.ledger.capabilityName(p.call.tool).Some?
    ensures HearAll(g, Bound(p), Calling(p))
         == Heard(Bound(p).(serverIds := {p.key}, items := map[p.call.id := ItemState(ToolTag, true, true)],
                            ledger := Bound(p).ledger.(calls := map[p.call.id := CompletedCall(g, p)])))
  {
    hide Bounded, Paired, HearAll, Ledger.Content, Do, Reports, CanonicalText, ReadBack, Named;
    var s0, c := Bound(p), p.call;
    IdentifierOf(g, p);
    StartGoesThrough(g.ledger, s0.ledger, c, StartItem());
    var announced := Ledger.Call(c.tool, g.ledger.capabilityName(c.tool).value, CanonicalText(c.arguments), false, None,
                              false, false);
    var l1 := s0.ledger.(calls := s0.ledger.calls[c.id := announced]);
    ClaimGoesThrough(g.ledger, l1, c);
    var l2 := l1.(calls := l1.calls[c.id := announced.(claimed := true)]);
    AnswerGoesThrough(g.ledger, l2, c.id, p.answer, true);
    var l3 := l2.(calls := l2.calls[c.id := announced.(claimed := true, response := Some(Response(true, p.answer)))]);
    var l4 := l3.(calls := l3.calls[c.id := l3.calls[c.id].(written := true)]);
    ContentReports(EndItem(p.answer), Response(true, p.answer));
    EndGoesThrough(g.ledger, l4, c, EndItem(p.answer), Response(true, p.answer));
    var s1 := s0.(items := map[c.id := ItemState(ToolTag, true, false)], ledger := l1);
    var s2 := s1.(serverIds := {p.key}, ledger := l4);
    var s3 := s2.(items := map[c.id := ItemState(ToolTag, true, true)],
                  ledger := l4.(calls := l4.calls[c.id := l4.calls[c.id].(completed := true)]));
    assert {} + {p.key} == {p.key};
    HearNone(g, s0);
    HearNext(g, s0, [], Calling(p)[0], s0, s1);
    HearNext(g, s0, [] + [Calling(p)[0]], Calling(p)[1], s1, s2);
    HearNext(g, s0, [] + [Calling(p)[0]] + [Calling(p)[1]], Calling(p)[2], s2, s3);
    assert [] + [Calling(p)[0]] + [Calling(p)[1]] + [Calling(p)[2]] == Calling(p);
    assert s3.ledger.calls == map[c.id := CompletedCall(g, p)];
  }

  lemma IdentifierOf(g: S.Config, p: Script)
    requires WellScripted(g, p)
    ensures Identifier(p.call.id)
  {
    hide CanonicalText, Bounded;
  }

  /** A session in which the provider and the broker do as asked is accepted to
      its end, outputs its final answer, and leaves its call made in full. */
  lemma SessionGoesThrough(g: S.Config, p: Script)
    requires WellScripted(g, p)
    ensures g.ledger.capabilityName(p.call.tool).Some?
    ensures var heard := HearAll(g, Start(), Opening(p) + Calling(p) + Closing(p));
            && heard.Heard? && heard.session.turnCompleted && heard.session.output == Some(p.output)
            && heard.session.ledger == State(map[p.call.id := CompletedCall(g, p)], Some(p.thread), Some(p.turn), true)
  {
    hide Bounded, Paired, HearAll, Named, Identifier, Do, Opening, Calling, CompletedCall;
    OpeningHeard(g, p);
    CallingHeard(g, p);
    HearSplit(g, Start(), Opening(p), Calling(p));
    HearSplit(g, Start(), Opening(p) + Calling(p), Closing(p));
    var s0 := HearAll(g, Start(), Opening(p) + Calling(p)).session;
    FinishGoesThrough(g, p, s0.ledger);
    var s1 := s0.(items := s0.items[p.item := ItemState(AgentTag, false, true)], output := Some(p.output));
    var s2 := s1.(ledger := s0.ledger.(closed := true), turnCompleted := true);
    HearNone(g, s0);
    HearNext(g, s0, [], Closing(p)[0], s0, s1);
    HearNext(g, s0, [] + [Closing(p)[0]], Closing(p)[1], s1, s2);
    assert [] + [Closing(p)[0]] + [Closing(p)[1]] == Closing(p);
  }

  lemma FinishGoesThrough(g: S.Config, p: Script, l: State)
    requires g.ledger.capabilityName(p.call.tool).Some? && l.calls == map[p.call.id := CompletedCall(g, p)] && !l.closed
    ensures Do(g.ledger, l, Op.Finish) == Did(l.(closed := true), Done)
  {
    hide CanonicalText;
  }
}

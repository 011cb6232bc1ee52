/** The frames of one managed turn, in whatever order the provider sends them,
    and what the session takes as its output. */
module Session {
  import opened Texts
  import opened Ledger

  const MAX_ITEMS := 1024
  const MAX_SERVER_IDS := 1024
  const MAX_SERVER_KEY := 180
  const MAX_EARLY := 8
  const MAX_PENDING := 4
  const DENIED: Text := Chars("{\"error\":\"TOOL_REQUEST_DENIED\"}")

  datatype Method = ThreadStart | TurnStart | OtherMethod

  datatype Result = ThreadResult(threadId: Text, settingsHold: bool) | TurnResult(turnId: Text) | OtherResult

  datatype MessagePhase = Unphased | Commentary | FinalAnswer

  datatype Content =
    | ToolCall(call: Identity, item: Item)
    | AgentMessage(phase: MessagePhase, text: Text, plain: bool)
    | UserMessage(asked: bool)
    | Reasoning(bounded: bool)
    | OtherContent

  datatype Tag = ToolTag | AgentTag | UserTag | ReasoningTag | OtherTag

  /** One frame with the outcome of what the session awaits while handling it:
      the broker's answer and whether its own write was accepted. Between two
      frames the session's own workflow may send a request or give one up. */
  datatype Frame =
    | Request(asks: Method)
    | Expired(rpcId: nat)
    | Answer(rpcId: nat, result: Result)
    | Callback(key: Text, call: Identity, answer: Option<Text>, sent: bool)
    | ItemFrame(completed: bool, threadId: Text, turnId: Text, id: Text, content: Content, time: bool)
    | TurnCompleted(threadId: Text, turnId: Text, success: bool)
    | Delta(threadId: Text, turnId: Text, itemId: Text, tag: Tag, bounded: bool)
    | TurnStarted(threadId: Text, turnId: Text)
    | Notice(allowed: bool)

  datatype ItemState = ItemState(tag: Tag, started: bool, completed: bool)

  datatype Early = Early(rpcId: nat, turnId: Text, count: nat)

  datatype Config = Config(ledger: Ledger.Config, maxOutput: nat)

  datatype Session = Session(
    requestId: nat, pending: map<nat, Method>, serverIds: set<Text>, threadId: Option<Text>, turnId: Option<Text>,
    early: Option<Early>,
    items: map<Text, ItemState>, ledger: State, output: Option<Text>, unknownFinal: Option<Text>, turnCompleted: bool)

  datatype Heard = Failed | Heard(session: Session)

  function TagOf(c: Content): Tag {
    match c
    case ToolCall(_, _) => ToolTag
    case AgentMessage(_, _, _) => AgentTag
    case UserMessage(_) => UserTag
    case Reasoning(_) => ReasoningTag
    case OtherContent => OtherTag
  }

  // ------------------------------------------------------- one frame

  predicate InTurn(s: Session, threadId: Text, turnId: Text) {
    s.threadId == Some(threadId) && s.turnId == Some(turnId)
  }

  /** A request takes the next number; with four open it fails the session. */
  function Send(s: Session, asks: Method): Heard {
    if |s.pending| >= MAX_PENDING then Failed
    else Heard(s.(requestId := s.requestId + 1, pending := s.pending[s.requestId + 1 := asks]))
  }

  function Respond(g: Config, s: Session, id: nat, result: Result): Heard {
    if id !in s.pending then Failed
    else
      var rest := s.(pending := s.pending - {id});
      match s.pending[id]
      case ThreadStart =>
        if s.threadId.None? && result.ThreadResult? && result.settingsHold && Identifier(result.threadId)
        then Heard(rest.(threadId := Some(result.threadId)))
        else Failed
      case TurnStart =>
        if s.threadId.None? || s.turnId.Some? || !result.TurnResult? || !Identifier(result.turnId) then Failed
        else if s.early.Some? && (s.early.value.rpcId != id || s.early.value.turnId != result.turnId) then Failed
        else
          var bound := Do(g.ledger, s.ledger, Bind(s.threadId.value, result.turnId));
          if bound.reply.Refused? then Failed
          else Heard(rest.(turnId := Some(result.turnId), early := None, ledger := bound.state))
      case OtherMethod => Heard(rest)
  }

  /** A tool callback: claimed, answered and written before the next frame is heard. */
  function Call(g: Config, s: Session, key: Text, call: Identity, answer: Option<Text>, sent: bool): Heard {
    if |key| > MAX_SERVER_KEY || key in s.serverIds || |s.serverIds| >= MAX_SERVER_IDS then Failed
    else if s.turnCompleted || s.output.Some? then Failed
    else
      var claimed := Do(g.ledger, s.ledger, TakeCall(call));
      var success := answer.Some? && Bounded(answer.value, MAX_RESPONSE, false);
      var answered := Do(g.ledger, claimed.state,
          Op.Respond(call.id, if success then answer.value else DENIED, success));
      var written := Do(g.ledger, answered.state, MarkWritten(call.id));
      if claimed.reply.Refused? || answered.reply.Refused? || !sent || written.reply.Refused? then Failed
      else Heard(s.(serverIds := s.serverIds + {key}, ledger := written.state, unknownFinal := None))
  }

  function Message(g: Config, s: Session, completed: bool, phase: MessagePhase, text: Text, plain: bool): Heard {
    if !plain || !Bounded(text, g.maxOutput, true) then Failed
    else if !completed || phase.Commentary? then Heard(s)
    else if s.output.Some? then Failed
    else if phase.Unphased? then Heard(s.(unknownFinal := Some(text)))
    else if Bounded(text, g.maxOutput, false) then Heard(s.(output := Some(text)))
    else Failed
  }

  function ItemHeard(g: Config, s: Session, completed: bool, content: Content): Heard {
    match content
    case ToolCall(call, item) =>
      if s.output.Some? then Failed
      else
        var seen := Do(g.ledger, s.ledger, if completed then ObserveEnd(call, item) else ObserveStart(call, item));
        if seen.reply.Refused? then Failed else Heard(s.(ledger := seen.state, unknownFinal := None))
    case AgentMessage(phase, text, plain) => Message(g, s, completed, phase, text, plain)
    case UserMessage(asked) => if asked then Heard(s) else Failed
    case Reasoning(bounded) => if bounded then Heard(s) else Failed
    case OtherContent => Failed
  }

  function ItemStep(g: Config, s: Session, completed: bool, id: Text, content: Content): Heard {
    if s.turnCompleted || !Identifier(id) then Failed
    else if id in s.items && (s.items[id].tag != TagOf(content) || s.items[id].completed ||
        (!completed && s.items[id].started)) then Failed
    else if id !in s.items && |s.items| >= MAX_ITEMS then Failed
    else
      var state := ItemState(TagOf(content), !completed || (id in s.items && s.items[id].started), completed);
      ItemHeard(g, s.(items := s.items[id := state]), completed, content)
  }

  function Complete(g: Config, s: Session, success: bool): Heard {
    var finished := Do(g.ledger, s.ledger, Finish);
    var text := if s.output.Some? then s.output else s.unknownFinal;
    if s.turnCompleted || !success || finished.reply.Refused? || text.None? || !Bounded(text.value, g.maxOutput, false)
        then Failed
    else Heard(s.(ledger := finished.state, output := text, turnCompleted := true))
  }

  lemma Single(s: set<nat>)
    requires |s| == 1
    ensures exists x :: s == {x}
  {
    var x :| x in s;
    assert |s - {x}| == 0;
    assert s == {x};
  }

  function Only(s: set<nat>): (x: nat)
    requires |s| == 1
    ensures s == {x}
  {
    Single(s);
    var x :| s == {x};
    assert forall y :: s == {y} ==> y in {x};
    x
  }

  /** A turn may be announced before its response, by the one open request. */
  function Announce(s: Session, turnId: Text): Heard {
    if s.turnId.Some? then (if s.turnId.value == turnId then Heard(s) else Failed)
    else
      var starts := set id | id in s.pending && s.pending[id].TurnStart?;
      if |starts| != 1 then Failed
      else
        var rpcId := Only(starts);
        var early := if s.early.Some? then s.early.value else Early(rpcId, turnId, 0);
        if early.rpcId != rpcId || early.turnId != turnId || early.count + 1 > MAX_EARLY then Failed
        else Heard(s.(early := Some(early.(count := early.count + 1))))
  }

  function Hear(g: Config, s: Session, f: Frame): Heard {
    match f
    case Request(asks) => Send(s, asks)
    case Expired(id) => Heard(s.(pending := s.pending - {id}))
    case Answer(id, result) => Respond(g, s, id, result)
    case Callback(key, call, answer, sent) => Call(g, s, key, call, answer, sent)
    case ItemFrame(completed, threadId, turnId, id, content, time) =>
      if time && InTurn(s, threadId, turnId) then ItemStep(g, s, completed, id, content) else Failed
    case TurnCompleted(threadId, turnId, success) => if InTurn(s, threadId, turnId) then Complete(g, s, success)
        else Failed
    case Delta(threadId, turnId, itemId, tag, bounded) =>
      if bounded && InTurn(s, threadId, turnId) && !s.turnCompleted && itemId in s.items &&
          s.items[itemId] == ItemState(tag, true, false)
      then Heard(s)
      else Failed
    case TurnStarted(threadId, turnId) =>
      if !s.turnCompleted && s.threadId == Some(threadId) && Identifier(turnId) then Announce(s, turnId) else Failed
    case Notice(allowed) => if allowed then Heard(s) else Failed
  }

  // ------------------------------------------------------------- all runs

  function Start(): Session {
    Session(0, map[], {}, None, None, None, map[], FRESH.state, None, None, false)
  }

  /** A failed frame fails the session; later frames are not heard. */
  function HearAll(g: Config, s: Session, frames: seq<Frame>): Heard
    decreases |frames|
  {
    if frames == [] then Heard(s)
    else
      match HearAll(g, s, frames[..|frames| - 1])
      case Failed => Failed
      case Heard(before) => Hear(g, before, frames[|frames| - 1])
  }

  lemma HearOneMore(g: Config, s: Session, frames: seq<Frame>, f: Frame)
    ensures HearAll(g, s, frames + [f])
         == if HearAll(g, s, frames).Failed? then Failed else Hear(g, HearAll(g, s, frames).session, f)
  {
    hide Hear;
    assert (frames + [f])[..|frames|] == frames;
  }

  predicate ToolFrame(f: Frame) {
    f.Callback? || (f.ItemFrame? && f.content.ToolCall?)
  }

  predicate Said(f: Frame, phase: MessagePhase) {
    f.ItemFrame? && f.completed && f.content.AgentMessage? && f.content.phase == phase
  }

  /** Neither a tool nor a completed message that could be the answer. */
  predicate Neutral(f: Frame) {
    !ToolFrame(f) && !Said(f, Unphased) && !Said(f, FinalAnswer)
  }

  /** The `k`-th frame is the answer: no other final answer anywhere, and
      nothing after it that could replace it or act on it. */
  ghost predicate AnswerAt(frames: seq<Frame>, k: nat, phase: MessagePhase, text: Text) {
    && k < |frames| && Said(frames[k], phase) && frames[k].content.text == text
    && (forall j :: 0 <= j < k ==> !Said(frames[j], FinalAnswer))
    && (forall j :: k < j < |frames| ==> Neutral(frames[j]))
  }

  ghost predicate Answered(frames: seq<Frame>, phase: MessagePhase, text: Text) {
    exists k: nat :: AnswerAt(frames, k, phase, text)
  }

  ghost predicate AllCompleted(l: State) {
    forall id :: id in l.calls ==> l.calls[id].completed && l.calls[id].written
  }

  /** Every open request has its own number among those given out. */
  ghost predicate Numbered(s: Session) {
    |s.pending| <= MAX_PENDING && forall id :: id in s.pending ==> 1 <= id <= s.requestId
  }

  ghost predicate Inv(s: Session, frames: seq<Frame>) {
    Numbered(s) && Truthful(s, frames)
  }

  /** What the session holds as its output is what the frames say it is. */
  ghost predicate Truthful(s: Session, frames: seq<Frame>) {
    if s.turnCompleted then
      && s.output.Some? && s.ledger.closed && AllCompleted(s.ledger)
      && (Answered(frames, FinalAnswer, s.output.value) || Answered(frames, Unphased, s.output.value))
    else if s.output.Some? then Answered(frames, FinalAnswer, s.output.value)
    else
      && (forall j :: 0 <= j < |frames| ==> !Said(frames[j], FinalAnswer))
      && (s.unknownFinal.Some? ==> Answered(frames, Unphased, s.unknownFinal.value))
  }

  lemma Unanswered(frames: seq<Frame>, f: Frame, phase: MessagePhase, text: Text)
    requires Neutral(f) && Answered(frames, phase, text)
    ensures Answered(frames + [f], phase, text)
  {
    hide Neutral, Said;
    var k: nat :| AnswerAt(frames, k, phase, text);
    var longer := frames + [f];
    assert forall j :: 0 <= j < |frames| ==> longer[j] == frames[j];
    assert AnswerAt(longer, k, phase, text);
  }

  lemma NewAnswer(frames: seq<Frame>, f: Frame, phase: MessagePhase)
    requires forall j :: 0 <= j < |frames| ==> !Said(frames[j], FinalAnswer)
    requires Said(f, phase)
    ensures Answered(frames + [f], phase, f.content.text)
  {
    var longer := frames + [f];
    assert forall j :: 0 <= j < |frames| ==> longer[j] == frames[j];
    assert AnswerAt(longer, |frames|, phase, f.content.text);
  }

  /** What one accepted frame does to the answer so far. */
  lemma HearOne(g: Config, s: Session, f: Frame)
    requires Hear(g, s, f).Heard?
    ensures var t := Hear(g, s, f).session;
            && (!Neutral(f) ==> !s.turnCompleted && s.output.None? && !t.turnCompleted)
            && (ToolFrame(f) ==> t.output.None? && t.unknownFinal.None?)
            && (Said(f, FinalAnswer) ==> t.output == Some(f.content.text))
            && (Said(f, Unphased) ==> t.output.None? && t.unknownFinal == Some(f.content.text))
            && (Neutral(f) && !f.TurnCompleted? ==>
                  t.output == s.output && t.unknownFinal == s.unknownFinal && t.turnCompleted == s.turnCompleted
                  && (s.ledger.closed ==> t.ledger == s.ledger))
            && (f.TurnCompleted? ==>
                  && !s.turnCompleted && t.turnCompleted && t.ledger.closed && AllCompleted(t.ledger)
                  && t.output == (if s.output.Some? then s.output else s.unknownFinal) && t.output.Some?)
  {
    hide Bounded, Identifier, Named, Reports, SameCall, ReadBack;
  }

  /** Only requests and their ends touch what is open. */
  lemma OpenSame(g: Config, s: Session, f: Frame)
    requires Hear(g, s, f).Heard?
    ensures var t := Hear(g, s, f).session;
            match f
            case Request(_) => |s.pending| < MAX_PENDING && t.requestId == s.requestId + 1 &&
              t.pending.Keys == s.pending.Keys + {t.requestId}
            case Expired(id) => t.requestId == s.requestId && t.pending.Keys == s.pending.Keys - {id}
            case Answer(id, _) =>
              id in s.pending && t.requestId == s.requestId && t.pending.Keys == s.pending.Keys - {id}
            case _ => t.requestId == s.requestId && t.pending == s.pending
  {
    hide Bounded, Identifier, Do, TagOf, InTurn;
  }

  lemma FewerOpen(s: Session, t: Session)
    requires Numbered(s) && s.requestId <= t.requestId && t.pending.Keys <= s.pending.Keys
    ensures Numbered(t)
  {
    SubsetSize(t.pending.Keys, s.pending.Keys);
    assert |t.pending| == |t.pending.Keys| && |s.pending| == |s.pending.Keys|;
    forall id | id in t.pending ensures 1 <= id <= t.requestId {
      assert id in t.pending.Keys;
    }
  }

  lemma OneMoreOpen(s: Session, t: Session)
    requires Numbered(s) && |s.pending| < MAX_PENDING && t.requestId == s.requestId + 1
    requires t.pending.Keys == s.pending.Keys + {t.requestId}
    ensures Numbered(t)
  {
    assert |t.pending| == |t.pending.Keys| && |s.pending| == |s.pending.Keys|;
    forall id | id in t.pending ensures 1 <= id <= t.requestId {
      assert id in t.pending.Keys;
    }
  }

  lemma HearNumbers(g: Config, s: Session, f: Frame)
    requires Numbered(s) && Hear(g, s, f).Heard?
    ensures Numbered(Hear(g, s, f).session)
    ensures s.requestId <= Hear(g, s, f).session.requestId
    ensures Hear(g, s, f).session.pending.Keys <= s.pending.Keys + {s.requestId + 1}
    ensures f.Answer? ==> f.rpcId in s.pending && f.rpcId !in Hear(g, s, f).session.pending
  {
    hide Hear, Numbered;
    OpenSame(g, s, f);
    if f.Request? {
      OneMoreOpen(s, Hear(g, s, f).session);
    } else {
      FewerOpen(s, Hear(g, s, f).session);
    }
  }

  /** A number no longer open, answered or given up, never opens again. */
  lemma {:induction false} AnsweredOnce(g: Config, s: Session, frames: seq<Frame>, id: nat)
    requires Numbered(s) && id <= s.requestId && id !in s.pending && HearAll(g, s, frames).Heard?
    ensures var t := HearAll(g, s, frames).session;
            && Numbered(t) && id <= t.requestId && id !in t.pending
            && forall f :: f in frames && f.Answer? ==> f.rpcId != id
    decreases |frames|
  {
    hide Hear, Numbered;
    if frames != [] {
      var front, f := frames[..|frames| - 1], frames[|frames| - 1];
      AnsweredOnce(g, s, front, id);
      HearNumbers(g, HearAll(g, s, front).session, f);
      assert frames == front + [f];
    }
  }

  lemma HearKeeps(g: Config, s: Session, frames: seq<Frame>, f: Frame)
    requires Inv(s, frames) && Hear(g, s, f).Heard?
    ensures Inv(Hear(g, s, f).session, frames + [f])
  {
    hide Hear, Said, ToolFrame, Answered, Numbered;
    var t := Hear(g, s, f).session;
    HearNumbers(g, s, f);
    HearOne(g, s, f);
    var longer := frames + [f];
    assert forall j :: 0 <= j < |frames| ==> longer[j] == frames[j];
    OneKind(f);
    if Neutral(f) {
      if s.output.Some? {
        forall phase | Answered(frames, phase, s.output.value) ensures Answered(longer, phase, s.output.value) {
          Unanswered(frames, f, phase, s.output.value);
        }
      } else if s.unknownFinal.Some? {
        Unanswered(frames, f, Unphased, s.unknownFinal.value);
      }
    } else if Said(f, FinalAnswer) {
      NewAnswer(frames, f, FinalAnswer);
    } else if Said(f, Unphased) {
      NewAnswer(frames, f, Unphased);
    }
  }

  lemma OneKind(f: Frame)
    ensures f.TurnCompleted? ==> Neutral(f)
    ensures !(Said(f, FinalAnswer) && (Said(f, Unphased) || ToolFrame(f)))
    ensures Neutral(f) || ToolFrame(f) || Said(f, FinalAnswer) || Said(f, Unphased)
  {
  }

  lemma {:induction false} RunKeeps(g: Config, frames: seq<Frame>)
    requires HearAll(g, Start(), frames).Heard?
    ensures Inv(HearAll(g, Start(), frames).session, frames)
    decreases |frames|
  {
    hide Hear, Inv;
    if frames == [] {
      StartFine();
    } else {
      var front := frames[..|frames| - 1];
      RunKeeps(g, front);
      HearKeeps(g, HearAll(g, Start(), front).session, front, frames[|frames| - 1]);
      assert front + [frames[|frames| - 1]] == frames;
    }
  }

  lemma StartFine()
    ensures Inv(Start(), [])
  {
  }

  /** A session accepted through its turn's completion outputs the one
      completed final answer, or without one the last completed unphased
      message; no callback or tool item follows that message, and every call
      ever started has been answered in writing and completed. */
  lemma OutputIsTheAnswer(g: Config, frames: seq<Frame>)
      returns (k: nat, phase: MessagePhase)
    requires HearAll(g, Start(), frames).Heard? && HearAll(g, Start(), frames).session.turnCompleted
    ensures var s := HearAll(g, Start(), frames).session;
            && s.output.Some? && AnswerAt(frames, k, phase, s.output.value) && AllCompleted(s.ledger)
            && (phase == FinalAnswer || (phase == Unphased && forall j :: 0 <= j < |frames| ==>
                !Said(frames[j], FinalAnswer)))
  {
    hide HearAll;
    RunKeeps(g, frames);
    var s := HearAll(g, Start(), frames).session;
    phase := if Answered(frames, FinalAnswer, s.output.value) then FinalAnswer else Unphased;
    k :| AnswerAt(frames, k, phase, s.output.value);
  }

  /** A second final answer, or any message or tool after it, fails the session. */
  lemma NothingAfterFinal(g: Config, s: Session, f: Frame)
    requires s.output.Some? && !Neutral(f)
    ensures Hear(g, s, f).Failed?
  {
    if Hear(g, s, f).Heard? {
      HearOne(g, s, f);
      OneKind(f);
    }
  }

  /** After completion nothing changes the output or the calls. */
  lemma CompletionIsFinal(g: Config, s: Session, f: Frame)
    requires s.turnCompleted && s.ledger.closed && Hear(g, s, f).Heard?
    ensures var t := Hear(g, s, f).session; t.turnCompleted && t.output == s.output && t.ledger == s.ledger
  {
    HearOne(g, s, f);
    OneKind(f);
  }

  // ------------------------------------------------------- the answers

  /** What a callback must be answered with: what the broker gave, if that is
      text within the bound and not blank, and otherwise the denial. */
  function Due(answer: Option<Text>): Response {
    if answer.Some? && Bounded(answer.value, MAX_RESPONSE, false) then Response(true, answer.value)
    else Response(false, Chars("{\"error\":\"TOOL_REQUEST_DENIED\"}"))
  }

  /** An accepted callback was answered in writing with what was due. */
  lemma CallAnswers(g: Config, s: Session, f: Frame)
    requires f.Callback? && Hear(g, s, f).Heard?
    ensures var t := Hear(g, s, f).session;
            && f.sent && f.call.id in t.ledger.calls && t.ledger.calls[f.call.id].response == Some(Due(f.answer))
            && t.ledger.calls[f.call.id].written
  {
    hide Bounded, Named, ReadBack, SameCall, Chars;
  }

  // ------------------------------------------------------------- the class

  class ManagedSession {
    const config: Config
    const ledger: CodexManagedCallLedger
    var requestId: nat
    var pending: map<nat, Method>
    var serverIds: set<Text>
    var threadId: Option<Text>
    var turnId: Option<Text>
    var early: Option<Early>
    var items: map<Text, ItemState>
    var output: Option<Text>
    var unknownFinal: Option<Text>
    var turnCompleted: bool
    var failed: bool
    ghost var frames: seq<Frame>

    constructor (config: Config)
      ensures this.config == config && fresh(ledger) && Valid() && !failed && Model() == Start() && frames == []
    {
      this.config := config;
      this.ledger := new CodexManagedCallLedger(config.ledger);
      requestId, pending, serverIds, threadId, turnId, early, items := 0, map[], {}, None, None, None, map[];
      output, unknownFinal, turnCompleted, failed, frames := None, None, false, false, [];
      new;
      StartFine();
    }

    ghost function Model(): Session
      reads this, ledger
    {
      Session(requestId, pending, serverIds, threadId, turnId, early, items, ledger.Model(), output, unknownFinal,
              turnCompleted)
    }

    /** The session is the run of the frames it heard; once one was refused
        it hears no more. */
    ghost predicate Valid()
      reads this, ledger
    {
      && ledger.config == config.ledger && ledger.Valid()
      && (if failed then HearAll(config, Start(), frames).Failed?
          else HearAll(config, Start(), frames) == Heard(Model()))
    }

    /** What the session gives out. */
    method Result() returns (text: Option<Text>)
      requires Valid()
      ensures text.Some? <==> !failed && turnCompleted
      ensures text.Some? ==> exists k: nat, phase ::
                AnswerAt(frames, k, phase, text.value) && (phase == FinalAnswer || phase == Unphased)
      ensures text.Some? ==> AllCompleted(ledger.Model())
    {
      hide HearAll;
      text := None;
      if !failed && turnCompleted {
        ghost var k, phase := OutputIsTheAnswer(config, frames);
        text := output;
      }
    }

    /** A frame was accepted, or it failed the session. */
    ghost predicate Took(before: Session, f: Frame, ok: bool)
      reads this, ledger
    {
      if ok then Hear(config, before, f) == Heard(Model()) else Hear(config, before, f).Failed?
    }

    /** Every frame goes through here: refused ones fail the session. */
    method Note(ghost before: Session, ghost f: Frame, ok: bool)
      requires ledger.config == config.ledger && ledger.Valid() && !failed
      requires HearAll(config, Start(), frames) == Heard(before) && Took(before, f, ok)
      modifies this`failed, this`frames
      ensures Valid() && failed == !ok && frames == old(frames) + [f] && Took(before, f, ok)
    {
      hide Hear, HearAll, Ledger.Inv;
      HearOneMore(config, Start(), frames, f);
      failed, frames := !ok, frames + [f];
    }

    method TryRequest(asks: Method) returns (ok: bool)
      requires ledger.config == config.ledger && ledger.Valid()
      modifies this`requestId, this`pending
      ensures ledger.Valid() && Took(old(Model()), Request(asks), ok)
    {
      hide Ledger.Inv;
      if |pending| >= MAX_PENDING {
        return false;
      }
      requestId := requestId + 1;
      pending := pending[requestId := asks];
      ok := true;
    }

    method OnRequest(asks: Method) returns (ok: bool)
      requires Valid() && !failed
      modifies this
      ensures Valid() && failed == !ok && frames == old(frames) + [Request(asks)]
      ensures Took(old(Model()), Request(asks), ok)
    {
      hide Hear, HearAll;
      ghost var before := Model();
      ok := TryRequest(asks);
      Note(before, Request(asks), ok);
    }

    method TryExpired(id: nat) returns (ok: bool)
      requires ledger.config == config.ledger && ledger.Valid()
      modifies this`pending
      ensures ledger.Valid() && Took(old(Model()), Expired(id), ok)
    {
      hide Ledger.Inv;
      pending := pending - {id};
      ok := true;
    }

    method OnExpired(id: nat) returns (ok: bool)
      requires Valid() && !failed
      modifies this
      ensures Valid() && failed == !ok && frames == old(frames) + [Expired(id)]
      ensures Took(old(Model()), Expired(id), ok)
    {
      hide Hear, HearAll;
      ghost var before := Model();
      ok := TryExpired(id);
      Note(before, Expired(id), ok);
    }

    method TryResponse(id: nat, result: Result) returns (ok: bool)
      requires ledger.config == config.ledger && ledger.Valid()
      modifies this`pending, this`threadId, this`turnId, this`early, ledger
      ensures ledger.Valid() && Took(old(Model()), Answer(id, result), ok)
    {
      hide Identifier, Do, Ledger.Inv;
      if id !in pending {
        return false;
      }
      match pending[id] {
        case ThreadStart =>
          if threadId.Some? || !result.ThreadResult? || !result.settingsHold || !Identifier(result.threadId) {
            return false;
          }
          threadId := Some(result.threadId);
        case TurnStart =>
          if threadId.None? || turnId.Some? || !result.TurnResult? || !Identifier(result.turnId) {
            return false;
          }
          if early.Some? && (early.value.rpcId != id || early.value.turnId != result.turnId) {
            return false;
          }
          turnId := Some(result.turnId);
          var bound := ledger.Bind(threadId.value, result.turnId);
          if bound.Refused? {
            return false;
          }
          early := None;
        case OtherMethod =>
      }
      pending := pending - {id};
      ok := true;
    }

    method OnResponse(id: nat, result: Result) returns (ok: bool)
      requires Valid() && !failed
      modifies this, ledger
      ensures Valid() && failed == !ok && frames == old(frames) + [Answer(id, result)]
      ensures Took(old(Model()), Answer(id, result), ok)
    {
      hide Hear, HearAll;
      ghost var before := Model();
      ok := TryResponse(id, result);
      Note(before, Answer(id, result), ok);
    }

    method TryCallback(key: Text, call: Identity, answer: Option<Text>, sent: bool) returns (ok: bool)
      requires ledger.config == config.ledger && ledger.Valid()
      modifies this`serverIds, this`unknownFinal, ledger
      ensures ledger.Valid() && Took(old(Model()), Callback(key, call, answer, sent), ok)
    {
      hide Bounded, Do, Ledger.Inv;
      if |key| > MAX_SERVER_KEY || key in serverIds || |serverIds| >= MAX_SERVER_IDS {
        return false;
      }
      serverIds := serverIds + {key};
      if turnCompleted || output.Some? {
        return false;
      }
      var claimed := ledger.Claim(call);
      if claimed.Refused? {
        return false;
      }
      unknownFinal := None;
      var text, success := DENIED, false;
      if answer.Some? && Bounded(answer.value, MAX_RESPONSE, false) {
        text, success := answer.value, true;
      }
      var answered := ledger.Respond(call.id, text, success);
      if answered.Refused? || !sent {
        return false;
      }
      var written := ledger.MarkWritten(call.id);
      ok := !written.Refused?;
    }

    method OnCallback(key: Text, call: Identity, answer: Option<Text>, sent: bool) returns (ok: bool)
      requires Valid() && !failed
      modifies this, ledger
      ensures Valid() && failed == !ok && frames == old(frames) + [Callback(key, call, answer, sent)]
      ensures ok ==> sent && call.id in ledger.calls && ledger.calls[call.id].response == Some(Due(answer))
      ensures Took(old(Model()), Callback(key, call, answer, sent), ok)
    {
      hide Hear, HearAll;
      ghost var before := Model();
      ok := TryCallback(key, call, answer, sent);
      Note(before, Callback(key, call, answer, sent), ok);
      if ok {
        CallAnswers(config, before, Callback(key, call, answer, sent));
      }
    }

    /** A message of the agent; a completed one may be the answer. */
    method TryMessage(completed: bool, phase: MessagePhase, text: Text, plain: bool) returns (ok: bool)
      modifies this`output, this`unknownFinal
      ensures var heard := Message(config, old(Model()), completed, phase, text, plain);
              if ok then heard == Heard(Model()) else heard.Failed?
    {
      hide Bounded;
      if !plain || !Bounded(text, config.maxOutput, true) {
        return false;
      }
      if completed && !phase.Commentary? {
        if output.Some? {
          return false;
        }
        if phase.FinalAnswer? {
          if !Bounded(text, config.maxOutput, false) {
            return false;
          }
          output := Some(text);
        } else {
          unknownFinal := Some(text);
        }
      }
      ok := true;
    }

    method TryContent(completed: bool, content: Content) returns (ok: bool)
      requires ledger.config == config.ledger && ledger.Valid()
      modifies this`output, this`unknownFinal, ledger
      ensures ledger.Valid()
      ensures var heard := ItemHeard(config, old(Model()), completed, content);
              if ok then heard == Heard(Model()) else heard.Failed?
    {
      hide Message, Do, Ledger.Inv;
      match content {
        case ToolCall(call, item) =>
          if output.Some? {
            return false;
          }
          var seen := ledger.Observe(call, item, !completed);
          unknownFinal := None;
          ok := !seen.Refused?;
        case AgentMessage(phase, text, plain) => ok := TryMessage(completed, phase, text, plain);
        case UserMessage(asked) => ok := asked;
        case Reasoning(bounded) => ok := bounded;
        case OtherContent => ok := false;
      }
    }

    method TryItem(completed: bool, thread: Text, turn: Text, id: Text, content: Content, time: bool) returns (ok: bool)
      requires ledger.config == config.ledger && ledger.Valid()
      modifies this`items, this`output, this`unknownFinal, ledger
      ensures ledger.Valid() && Took(old(Model()), ItemFrame(completed, thread, turn, id, content, time), ok)
    {
      hide ItemHeard, Identifier, Ledger.Inv;
      if !time || threadId != Some(thread) || turnId != Some(turn) || turnCompleted || !Identifier(id) {
        return false;
      }
      if id in items && (items[id].tag != TagOf(content) || items[id].completed || (!completed && items[id].started)) {
        return false;
      }
      if id !in items && |items| >= MAX_ITEMS {
        return false;
      }
      items := items[id := ItemState(TagOf(content), !completed || (id in items && items[id].started), completed)];
      ok := TryContent(completed, content);
    }

    method OnItem(completed: bool, thread: Text, turn: Text, id: Text, content: Content, time: bool) returns (ok: bool)
      requires Valid() && !failed
      modifies this, ledger
      ensures Valid() && failed == !ok
      ensures frames == old(frames) + [ItemFrame(completed, thread, turn, id, content, time)]
      ensures Took(old(Model()), ItemFrame(completed, thread, turn, id, content, time), ok)
    {
      hide Hear, HearAll;
      ghost var before := Model();
      ok := TryItem(completed, thread, turn, id, content, time);
      Note(before, ItemFrame(completed, thread, turn, id, content, time), ok);
    }

    method TryTurnCompleted(thread: Text, turn: Text, success: bool) returns (ok: bool)
      requires ledger.config == config.ledger && ledger.Valid()
      modifies this`output, this`turnCompleted, ledger
      ensures ledger.Valid() && Took(old(Model()), TurnCompleted(thread, turn, success), ok)
    {
      hide Bounded, Do, Ledger.Inv;
      if turnCompleted || threadId != Some(thread) || turnId != Some(turn) || !success {
        return false;
      }
      var finished := ledger.Finish();
      var text := if output.Some? then output else unknownFinal;
      if finished.Refused? || text.None? || !Bounded(text.value, config.maxOutput, false) {
        return false;
      }
      output, turnCompleted := text, true;
      ok := true;
    }

    method OnTurnCompleted(thread: Text, turn: Text, success: bool) returns (ok: bool)
      requires Valid() && !failed
      modifies this, ledger
      ensures Valid() && failed == !ok && frames == old(frames) + [TurnCompleted(thread, turn, success)]
      ensures Took(old(Model()), TurnCompleted(thread, turn, success), ok)
    {
      hide Hear, HearAll;
      ghost var before := Model();
      ok := TryTurnCompleted(thread, turn, success);
      Note(before, TurnCompleted(thread, turn, success), ok);
    }

    method TryTurnStarted(thread: Text, turn: Text) returns (ok: bool)
      requires ledger.config == config.ledger && ledger.Valid()
      modifies this`early
      ensures ledger.Valid() && Took(old(Model()), TurnStarted(thread, turn), ok)
    {
      hide Identifier, Ledger.Inv;
      if turnCompleted || threadId != Some(thread) || !Identifier(turn) {
        return false;
      }
      if turnId.Some? {
        return turnId.value == turn;
      }
      var starts := set id | id in pending && pending[id].TurnStart?;
      if |starts| != 1 {
        return false;
      }
      var announced := if early.Some? then early.value else Early(Only(starts), turn, 0);
      early := Some(announced.(count := announced.count + 1));
      ok := announced.rpcId == Only(starts) && announced.turnId == turn && announced.count + 1 <= MAX_EARLY;
    }

    method OnTurnStarted(thread: Text, turn: Text) returns (ok: bool)
      requires Valid() && !failed
      modifies this
      ensures Valid() && failed == !ok && frames == old(frames) + [TurnStarted(thread, turn)]
      ensures Took(old(Model()), TurnStarted(thread, turn), ok)
    {
      hide Hear, HearAll;
      ghost var before := Model();
      ok := TryTurnStarted(thread, turn);
      Note(before, TurnStarted(thread, turn), ok);
    }

    method TryDelta(thread: Text, turn: Text, itemId: Text, tag: Tag, bounded: bool) returns (ok: bool)
      requires ledger.config == config.ledger && ledger.Valid()
      modifies {}
      ensures ledger.Valid() && Took(old(Model()), Delta(thread, turn, itemId, tag, bounded), ok)
    {
      hide Ledger.Inv;
      var scoped := threadId == Some(thread) && turnId == Some(turn) && !turnCompleted;
      ok := bounded && scoped && itemId in items && items[itemId] == ItemState(tag, true, false);
    }

    method OnDelta(thread: Text, turn: Text, itemId: Text, tag: Tag, bounded: bool) returns (ok: bool)
      requires Valid() && !failed
      modifies this
      ensures Valid() && failed == !ok && frames == old(frames) + [Delta(thread, turn, itemId, tag, bounded)]
      ensures Took(old(Model()), Delta(thread, turn, itemId, tag, bounded), ok)
    {
      hide Hear, HearAll;
      ghost var before := Model();
      ok := TryDelta(thread, turn, itemId, tag, bounded);
      Note(before, Delta(thread, turn, itemId, tag, bounded), ok);
    }
  }
}

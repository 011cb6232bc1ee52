/** Which operations the callback ledger accepts, told by the moves made before. */
module LedgerAccepts {
  import opened Texts
  import opened Json
  import opened Canonical
  import opened Ledger

  /** A call by an identifier, of a tool that stands for a capability, on an
      object within 256 KiB as canonical text. */
  predicate Known(g: Config, c: Identity) {
    && Identifier(c.id) && Identifier(c.tool) && g.capabilityName(c.tool).Some? && !c.namespaced
    && c.arguments.Obj? && WellFormed(c.arguments) && Encodable(c.arguments)
    && Utf8Len(CanonicalText(c.arguments)) <= 262_144
  }

  /** The ledger is open and the call is of its turn. */
  predicate OfTurn(s: State, c: Identity) {
    !s.closed && s.threadId == Some(c.threadId) && s.turnId == Some(c.turnId)
  }

  /** A call that has come as far as `rank` and no further. */
  predicate Reached(log: seq<Move>, id: Text, rank: nat) {
    Logged(log, id, rank) && !Logged(log, id, rank + 1)
  }

  /** The call was announced with this tool and these arguments. */
  ghost predicate Announced(log: seq<Move>, c: Identity) {
    exists i :: 0 <= i < |log| && log[i].Started? && log[i].id == c.id && log[i].tool == c.tool &&
      CanonicalText(log[i].arguments) == CanonicalText(c.arguments)
  }

  /** The item reports what the call was answered with. */
  ghost predicate SaysAnswer(log: seq<Move>, id: Text, item: Item) {
    exists i :: 0 <= i < |log| && log[i].Answered? && log[i].id == id &&
      Reports(item, Response(log[i].success, log[i].text))
  }

  /** What an operation needs, by the moves of the log. */
  ghost predicate Acceptable(g: Config, t: Trace, op: Op) {
    match op
    case Bind(thread, turn) => t.state.threadId.None? && !t.state.closed && Identifier(thread) && Identifier(turn)
    case ObserveStart(c, item) =>
      && OfTurn(t.state, c) && Known(g, c) && !Logged(t.log, c.id, 0) && |t.state.calls| < g.maximumCalls
      && item == Item(InProgress, Null, None, true)
    case TakeCall(c) =>
      OfTurn(t.state, c) && Known(g, c) && Reached(t.log, c.id, 0) && Announced(t.log, c)
    case Respond(id, text, _) => !t.state.closed && Reached(t.log, id, 1) && Bounded(text, 524_288, true)
    case MarkWritten(id) => !t.state.closed && Reached(t.log, id, 2)
    case ObserveEnd(c, item) =>
      && OfTurn(t.state, c) && Known(g, c) && Reached(t.log, c.id, 3) && Announced(t.log, c)
      && item.times && SaysAnswer(t.log, c.id, item)
    case Finish => !t.state.closed && forall id :: Logged(t.log, id, 0) ==> Logged(t.log, id, 4)
  }

  /** The table tells how far each call has come. */
  lemma TableTells(g: Config, t: Trace, id: Text)
    requires Inv(g, t)
    ensures id in t.state.calls <==> Logged(t.log, id, 0)
    ensures id in t.state.calls ==>
              var call := t.state.calls[id];
              && (call.claimed <==> Logged(t.log, id, 1)) && (call.response.Some? <==> Logged(t.log, id, 2))
              && (call.written <==> Logged(t.log, id, 3)) && (call.completed <==> Logged(t.log, id, 4))
              && (call.completed ==> call.written) && (call.written ==> call.response.Some?)
              && (call.response.Some? ==> call.claimed)
    ensures Logged(t.log, id, 4) ==> Logged(t.log, id, 3)
    ensures Logged(t.log, id, 3) ==> Logged(t.log, id, 2)
    ensures Logged(t.log, id, 2) ==> Logged(t.log, id, 1)
    ensures Logged(t.log, id, 1) ==> Logged(t.log, id, 0)
  {
    hide Logged, Carried, InTurn;
    assert Made(t.state, id, 0) <==> Logged(t.log, id, 0);
    assert Made(t.state, id, 1) <==> Logged(t.log, id, 1);
    assert Made(t.state, id, 2) <==> Logged(t.log, id, 2);
    assert Made(t.state, id, 3) <==> Logged(t.log, id, 3);
    assert Made(t.state, id, 4) <==> Logged(t.log, id, 4);
  }

  lemma AnnouncedIs(g: Config, t: Trace, c: Identity)
    requires Inv(g, t) && Logged(t.log, c.id, 0)
    ensures c.id in t.state.calls && (Announced(t.log, c) <==> SameCall(t.state.calls[c.id], c))
  {
    hide Logged, CanonicalText, ReadBack, Reports, WellFormed, InTurn;
    MoveMade(t.log, c.id, 0);
    var i :| 0 <= i < |t.log| && t.log[i].id == c.id && Rank(t.log[i]) == 0;
    assert Carried(g, t.state, t.log[i]);
    assert t.log[i].Started?;
  }

  lemma MoveMade(log: seq<Move>, id: Text, rank: nat)
    requires Logged(log, id, rank)
    ensures exists i :: 0 <= i < |log| && log[i].id == id && Rank(log[i]) == rank
  {
  }

  lemma AnswerIs(g: Config, t: Trace, id: Text, item: Item)
    requires Inv(g, t) && Logged(t.log, id, 2)
    ensures id in t.state.calls && t.state.calls[id].response.Some?
    ensures SaysAnswer(t.log, id, item) <==> Reports(item, t.state.calls[id].response.value)
  {
    hide Logged, CanonicalText, ReadBack, Reports, WellFormed, InTurn;
    MoveMade(t.log, id, 2);
    var i :| 0 <= i < |t.log| && t.log[i].id == id && Rank(t.log[i]) == 2;
    assert Carried(g, t.state, t.log[i]);
    assert t.log[i].Answered?;
  }

  lemma CallAccepted(g: Config, t: Trace, op: Op)
    requires Inv(g, t) && (op.ObserveStart? || op.ObserveEnd? || op.TakeCall?)
    ensures !Do(g, t.state, op).reply.Refused? <==> Acceptable(g, t, op)
  {
    hide Inv, Logged, Identifier, CanonicalText, Encodable, WellFormed, Utf8Len, Reports, SameCall, ReadBack, Announced,
      SaysAnswer;
    TableTells(g, t, op.call.id);
    if Logged(t.log, op.call.id, 0) {
      AnnouncedIs(g, t, op.call);
    }
    if op.ObserveEnd? && Logged(t.log, op.call.id, 2) {
      AnswerIs(g, t, op.call.id, op.item);
    }
  }

  lemma AnswerAccepted(g: Config, t: Trace, op: Op)
    requires Inv(g, t) && (op.Respond? || op.MarkWritten?)
    ensures !Do(g, t.state, op).reply.Refused? <==> Acceptable(g, t, op)
  {
    hide Inv, Logged, Bounded;
    TableTells(g, t, op.id);
  }

  lemma EndAccepted(g: Config, t: Trace, op: Op)
    requires Inv(g, t) && (op.Finish? || op.Bind?)
    ensures !Do(g, t.state, op).reply.Refused? <==> Acceptable(g, t, op)
  {
    hide Inv, Logged, Identifier;
    forall id ensures id in t.state.calls <==> Logged(t.log, id, 0)
      ensures id in t.state.calls ==>
                ((t.state.calls[id].completed && t.state.calls[id].written) <==> Logged(t.log, id, 4))
    {
      TableTells(g, t, id);
    }
  }

  /** In every run an operation is accepted exactly when the ledger is in the
      state it asks for: each call's moves come one after the other, each once,
      for the call as it was announced and within the bounds. */
  lemma AcceptedExactly(g: Config, ops: seq<Op>, op: Op)
    ensures var t := Run(g, FRESH, ops); !Do(g, t.state, op).reply.Refused? <==> Acceptable(g, t, op)
  {
    hide Run, Do, Acceptable, Inv;
    FreshFine(g);
    RunKeeps(g, FRESH, ops);
    var t := Run(g, FRESH, ops);
    if op.ObserveStart? || op.ObserveEnd? || op.TakeCall? {
      CallAccepted(g, t, op);
    } else if op.Respond? || op.MarkWritten? {
      AnswerAccepted(g, t, op);
    } else {
      EndAccepted(g, t, op);
    }
  }
}

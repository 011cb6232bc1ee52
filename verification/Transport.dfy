/** Correlation of requests and responses by id in the account transport. */
module Transport {
  const MAX_PENDING := 4
  const MAX_REQUESTS := 256

  datatype Outcome = Answered | RpcError | Aborted | TimedOut | WriteFailed | Failed | Closed

  /** The one time an id's caller was told anything. */
  datatype Settlement = Settlement(id: nat, outcome: Outcome)

  /** `settled` and `consumed` record which promises the transport has settled
      and which responses it has taken, in order; `unsent` the ids whose frame
      was too large to write, and whose caller was rejected on the spot. */
  datatype State = State(
    nextId: nat, pending: set<nat>, retired: set<nat>, failed: bool, closing: bool,
    settled: seq<Settlement>, consumed: seq<nat>, unsent: set<nat>)

  /** A response frame; `sound` when exactly one of result and error is there and well formed. */
  datatype Frame = Frame(id: int, sound: bool, isError: bool)

  datatype Event =
    | Rpc(allowed: bool, fits: bool)
    | Abort(id: nat)
    | Timeout(id: nat)
    | WriteRefused(id: nat)
    | Receive(frame: Frame)
    | Fail
    | Close

  const START := State(0, {}, {}, false, false, [], [], {})

  // ------------------------------------------------------------- the steps

  function Settle(s: State, id: nat, outcome: Outcome): State {
    if id in s.pending then s.(pending := s.pending - {id}, settled := s.settled + [Settlement(id, outcome)]) else s
  }

  /** Giving up on a pending request keeps its id for the late response. */
  function Retire(s: State, id: nat, outcome: Outcome): State {
    if id in s.pending then Settle(s.(retired := s.retired + {id}), id, outcome) else s
  }

  predicate IsLeast(id: nat, ids: set<nat>) {
    id in ids && forall other :: other in ids ==> id <= other
  }

  lemma {:induction false} LeastExists(ids: set<nat>) returns (id: nat)
    requires ids != {}
    ensures IsLeast(id, ids)
  {
    id :| id in ids;
    if ids != {id} {
      var rest := LeastExists(ids - {id});
      forall other | other in ids ensures other == id || rest <= other {
        assert other == id || other in ids - {id};
      }
      if rest < id {
        id := rest;
      }
    }
  }

  lemma SomeLeast(ids: set<nat>)
    requires ids != {}
    ensures exists id :: IsLeast(id, ids)
  {
    var id := LeastExists(ids);
  }

  function Least(ids: set<nat>): (id: nat)
    requires ids != {}
    ensures id in ids
  {
    SomeLeast(ids);
    var id :| IsLeast(id, ids);
    id
  }

  /** Every pending caller is told, in the order of the ids. */
  function SettleAll(s: State, outcome: Outcome): (t: State)
    ensures t.pending == {} && t == s.(pending := {}, settled := t.settled)
    decreases |s.pending|
  {
    if s.pending == {} then s else SettleAll(Settle(s, Least(s.pending), outcome), outcome)
  }

  function FailStep(s: State): State {
    if s.failed then s else SettleAll(s.(failed := true), Outcome.Failed).(closing := true)
  }

  function CloseStep(s: State): State {
    if s.closing then s else SettleAll(s.(closing := true), Outcome.Closed)
  }

  /** The id is pending before its frame is measured: a frame that is too large
      rejects the caller at once and leaves the id to its timer. */
  function RpcStep(s: State, allowed: bool, fits: bool): State {
    if !allowed || s.closing || s.failed || |s.pending| >= MAX_PENDING || s.nextId >= MAX_REQUESTS then s
    else
      s.(nextId := s.nextId + 1, pending := s.pending + {s.nextId + 1},
         unsent := if fits then s.unsent else s.unsent + {s.nextId + 1})
  }

  function ReceiveStep(s: State, f: Frame): State {
    if s.closing || s.failed then s
    else if !(1 <= f.id <= MAX_REQUESTS) || (f.id !in s.pending && f.id !in s.retired) || !f.sound then FailStep(s)
    else
      var taken := s.(consumed := s.consumed + [f.id]);
      if f.id in s.retired then taken.(retired := s.retired - {f.id})
      else Settle(taken, f.id, if f.isError then RpcError else Answered)
  }

  function Step(s: State, e: Event): State {
    match e
    case Rpc(allowed, fits) => RpcStep(s, allowed, fits)
    case Abort(id) => Retire(s, id, Aborted)
    case Timeout(id) => Retire(s, id, TimedOut)
    case WriteRefused(id) => if id in s.unsent then s else Retire(s, id, WriteFailed)
    case Receive(f) => ReceiveStep(s, f)
    case Fail => FailStep(s)
    case Close => CloseStep(s)
  }

  function Run(s: State, events: seq<Event>): State
    decreases |events|
  {
    if events == [] then s else Run(Step(s, events[0]), events[1..])
  }

  // ---------------------------------------------------------- invariant

  function Told(settled: seq<Settlement>): set<nat> {
    set i | 0 <= i < |settled| :: settled[i].id
  }

  function Taken(consumed: seq<nat>): set<nat> {
    set i | 0 <= i < |consumed| :: consumed[i]
  }

  predicate Issued(s: State, id: nat) {
    1 <= id <= s.nextId
  }

  /** Every issued id is pending or told, never both and never told twice. */
  ghost predicate TellsOnce(s: State) {
    && s.nextId <= MAX_REQUESTS && |s.pending| <= MAX_PENDING
    && (forall id :: id in s.pending ==> Issued(s, id) && id !in Told(s.settled))
    && (forall id :: Issued(s, id) ==> id in s.pending || id in Told(s.settled))
    && (forall i :: 0 <= i < |s.settled| ==> Issued(s, s.settled[i].id))
    && (forall i, j :: 0 <= i < j < |s.settled| ==> s.settled[i].id != s.settled[j].id)
  }

  /** A response is taken at most once, and never for an id still awaited. */
  ghost predicate TakesOnce(s: State) {
    && (forall id :: id in s.retired ==> Issued(s, id) && id !in s.pending && id !in Taken(s.consumed))
    && (forall id :: id in s.pending ==> id !in Taken(s.consumed))
    && (forall i :: 0 <= i < |s.consumed| ==> Issued(s, s.consumed[i]))
    && (forall i, j :: 0 <= i < j < |s.consumed| ==> s.consumed[i] != s.consumed[j])
  }

  /** Until the end every issued id is awaited or its response has been taken. */
  ghost predicate Accounted(s: State) {
    forall id :: Issued(s, id) ==> id in s.pending || id in s.retired || id in Taken(s.consumed)
  }

  ghost predicate Inv(s: State) {
    TellsOnce(s) && TakesOnce(s) && (forall id :: id in s.unsent ==> Issued(s, id)) && (s.failed ==> s.closing)
    && if s.failed || s.closing then s.pending == {} else Accounted(s)
  }

  lemma ToldMore(settled: seq<Settlement>, one: Settlement)
    ensures Told(settled + [one]) == Told(settled) + {one.id}
  {
    var longer := settled + [one];
    assert longer[|settled|] == one;
    assert forall i :: 0 <= i < |settled| ==> longer[i] == settled[i];
    forall id | id in Told(settled) + {one.id} ensures id in Told(longer) {
      if id in Told(settled) {
        var i :| 0 <= i < |settled| && settled[i].id == id;
        assert longer[i].id == id;
      }
    }
  }

  lemma TakenMore(consumed: seq<nat>, id: nat)
    ensures Taken(consumed + [id]) == Taken(consumed) + {id}
  {
    var longer := consumed + [id];
    assert longer[|consumed|] == id;
    assert forall i :: 0 <= i < |consumed| ==> longer[i] == consumed[i];
    forall other | other in Taken(consumed) + {id} ensures other in Taken(longer) {
      if other in Taken(consumed) {
        var i :| 0 <= i < |consumed| && consumed[i] == other;
        assert longer[i] == other;
      }
    }
  }

  lemma InTold(settled: seq<Settlement>, i: nat)
    requires i < |settled|
    ensures settled[i].id in Told(settled)
  {
  }

  lemma InTaken(consumed: seq<nat>, i: nat)
    requires i < |consumed|
    ensures consumed[i] in Taken(consumed)
  {
  }

  lemma SettleTells(s: State, id: nat, outcome: Outcome)
    requires TellsOnce(s)
    ensures TellsOnce(Settle(s, id, outcome))
  {
    hide Told;
    if id in s.pending {
      var one := Settlement(id, outcome);
      ToldMore(s.settled, one);
      forall i | 0 <= i < |s.settled| ensures s.settled[i].id != id {
        InTold(s.settled, i);
      }
    }
  }

  lemma {:induction false} SettleAllTells(s: State, outcome: Outcome)
    requires TellsOnce(s)
    ensures TellsOnce(SettleAll(s, outcome))
    decreases |s.pending|
  {
    hide TellsOnce, Told;
    if s.pending != {} {
      var id := Least(s.pending);
      SettleTells(s, id, outcome);
      SettleAllTells(Settle(s, id, outcome), outcome);
    }
  }

  lemma EndKeeps(s: State, t: State, outcome: Outcome)
    requires Inv(s) && t == s.(failed := t.failed, closing := t.closing) && (t.failed || t.closing)
    ensures Inv(SettleAll(t, outcome).(closing := true)) && (t.closing ==> Inv(SettleAll(t, outcome)))
  {
    hide Told, Taken, SettleAll;
    SettleAllTells(t, outcome);
  }

  /** An id given out is a new one, whether or not its frame is sent. */
  lemma NewIdTells(s: State, t: State)
    requires TellsOnce(s) && |s.pending| < MAX_PENDING && s.nextId < MAX_REQUESTS
    requires t == s.(nextId := s.nextId + 1, pending := s.pending + {s.nextId + 1}, unsent := t.unsent)
    ensures TellsOnce(t)
  {
    hide Told;
    NotTold(s.settled, s.nextId + 1);
  }

  lemma NewIdTakes(s: State, t: State)
    requires TakesOnce(s) && Accounted(s)
    requires t == s.(nextId := s.nextId + 1, pending := s.pending + {s.nextId + 1}, unsent := t.unsent)
    ensures TakesOnce(t) && Accounted(t)
  {
    hide Taken;
    NotTaken(s.consumed, s.nextId + 1);
  }

  lemma RpcKeeps(s: State, allowed: bool, fits: bool)
    requires Inv(s)
    ensures Inv(RpcStep(s, allowed, fits))
  {
    hide TellsOnce, TakesOnce, Accounted;
    var t := RpcStep(s, allowed, fits);
    if t != s {
      NewIdTells(s, t);
      NewIdTakes(s, t);
    }
  }

  lemma NotTold(settled: seq<Settlement>, id: nat)
    requires forall i :: 0 <= i < |settled| ==> settled[i].id != id
    ensures id !in Told(settled)
  {
  }

  lemma NotTaken(consumed: seq<nat>, id: nat)
    requires forall i :: 0 <= i < |consumed| ==> consumed[i] != id
    ensures id !in Taken(consumed)
  {
  }

  lemma RetireKeeps(s: State, id: nat, outcome: Outcome)
    requires Inv(s)
    ensures Inv(Retire(s, id, outcome))
  {
    hide Told, Taken;
    if id in s.pending {
      SettleTells(s.(retired := s.retired + {id}), id, outcome);
    }
  }

  lemma TakeKeeps(s: State, id: nat, outcome: Outcome)
    requires Inv(s) && !s.failed && !s.closing && (id in s.pending || id in s.retired)
    ensures var taken := s.(consumed := s.consumed + [id]);
            Inv(if id in s.retired then taken.(retired := s.retired - {id}) else Settle(taken, id, outcome))
  {
    hide Told, Taken;
    TakenMore(s.consumed, id);
    SettleTells(s, id, outcome);
    forall i | 0 <= i < |s.consumed| ensures s.consumed[i] != id {
      InTaken(s.consumed, i);
    }
  }

  lemma StepKeeps(s: State, e: Event)
    requires Inv(s)
    ensures Inv(Step(s, e))
  {
    hide Inv, SettleAll, RpcStep, Retire;
    match e
    case Rpc(allowed, fits) => RpcKeeps(s, allowed, fits);
    case Abort(id) => RetireKeeps(s, id, Aborted);
    case Timeout(id) => RetireKeeps(s, id, TimedOut);
    case WriteRefused(id) => RetireKeeps(s, id, WriteFailed);
    case Receive(f) =>
      EndKeeps(s, s.(failed := true), Outcome.Failed);
      if !s.closing && !s.failed && f.id >= 0 && (f.id in s.pending || f.id in s.retired) {
        TakeKeeps(s, f.id, if f.isError then RpcError else Answered);
      }
    case Fail => EndKeeps(s, s.(failed := true), Outcome.Failed);
    case Close => EndKeeps(s, s.(closing := true), Outcome.Closed);
  }

  lemma {:induction false} RunKeeps(s: State, events: seq<Event>)
    requires Inv(s)
    ensures Inv(Run(s, events))
    decreases |events|
  {
    hide Inv, Step;
    if events != [] {
      StepKeeps(s, events[0]);
      RunKeeps(Step(s, events[0]), events[1..]);
    }
  }

  lemma StartFine()
    ensures Inv(START)
  {
  }

  // --------------------------------------------------------- main results

  /** In every run pending and retired ids are disjoint subsets of the issued
      ids and at most 4 are pending; while the transport lives every issued id
      is pending, retired, or has had its one response. */
  lemma IdsAreAccountedFor(events: seq<Event>)
    ensures var s := Run(START, events);
            && |s.pending| <= MAX_PENDING && s.pending !! s.retired
            && (forall id :: id in s.pending || id in s.retired ==> Issued(s, id)) && (s.failed ==> s.closing)
            && (!s.failed && !s.closing ==> forall id :: Issued(s, id) ==>
                id in s.pending || id in s.retired || id in Taken(s.consumed))
  {
    hide Run;
    StartFine();
    RunKeeps(START, events);
  }

  /** How often the promise of an id has been settled. */
  function Settled(settled: seq<Settlement>, id: nat): nat {
    if settled == [] then 0
    else Settled(settled[..|settled| - 1], id) + if settled[|settled| - 1].id == id then 1 else 0
  }

  /** How often a caller has been told: nobody listens any more to the promise
      of a frame that was never sent. */
  function Tellings(s: State, id: nat): nat {
    if id in s.unsent then 1 else Settled(s.settled, id)
  }

  lemma {:induction false} SettledOnce(settled: seq<Settlement>, id: nat)
    requires forall i, j :: 0 <= i < j < |settled| ==> settled[i].id != settled[j].id
    ensures Settled(settled, id) == if id in Told(settled) then 1 else 0
  {
    if settled != [] {
      var front, last := settled[..|settled| - 1], settled[|settled| - 1];
      SettledOnce(front, id);
      ToldMore(front, last);
      assert front + [last] == settled;
      assert last.id !in Told(front) by {
        NotTold(front, last.id);
      }
    }
  }

  /** Each caller is told exactly once unless its call is still open, and no
      promise is left open when the transport fails or closes. */
  lemma CallersToldOnce(events: seq<Event>, id: nat)
    requires Issued(Run(START, events), id)
    ensures var s := Run(START, events);
            && Tellings(s, id) == (if id in s.pending && id !in s.unsent then 0 else 1)
            && (id in s.pending <==> forall i :: 0 <= i < |s.settled| ==> s.settled[i].id != id)
            && (forall i, j :: 0 <= i < j < |s.settled| ==> s.settled[i].id != s.settled[j].id)
            && (s.failed || s.closing ==> id !in s.pending)
  {
    hide Run, Told, Taken;
    StartFine();
    RunKeeps(START, events);
    var s := Run(START, events);
    SettledOnce(s.settled, id);
    if id in s.pending {
      forall i | 0 <= i < |s.settled| ensures s.settled[i].id != id {
        InTold(s.settled, i);
      }
    } else {
      var i := IndexOf(s.settled, id);
    }
  }

  lemma IndexOf(settled: seq<Settlement>, id: nat) returns (i: nat)
    requires id in Told(settled)
    ensures i < |settled| && settled[i].id == id
  {
    i :| 0 <= i < |settled| && settled[i].id == id;
  }

  /** A frame that is too large keeps one of the four places until its timer,
      its caller's abort, a response with its id or the end. */
  lemma UnsentKeepsItsPlace(s: State, id: nat, e: Event)
    requires Inv(s) && id in s.unsent && id in s.pending && id !in Step(s, e).pending
    ensures e == Timeout(id) || e == Abort(id) || e.Fail? || e.Close? || e.Receive?
    ensures e.Receive? ==> e.frame.id == id || Step(s, e).failed
  {
    hide SettleAll, Inv;
  }

  /** An accepted response frame takes exactly one id out of those awaited;
      a caller that had given up hears nothing of it. */
  lemma ResponseTakesOne(s: State, f: Frame)
    requires Inv(s) && !s.failed && !s.closing && !Step(s, Receive(f)).failed
    ensures f.id >= 0
    ensures var t := Step(s, Receive(f));
            && (f.id in s.pending || f.id in s.retired) && t.consumed == s.consumed + [f.id]
            && t.pending + t.retired == (s.pending + s.retired) - {f.id}
            && t.settled == s.settled + if f.id in s.retired then []
                else [Settlement(f.id, if f.isError then RpcError else Answered)]
  {
    hide SettleAll, Inv;
    Disjoint(s);
  }

  lemma Disjoint(s: State)
    requires Inv(s)
    ensures s.pending !! s.retired
  {
    hide Told, Taken;
  }

  /** A second response for an id fails the transport, whatever happened between. */
  lemma SecondResponseRefused(events: seq<Event>, f: Frame)
    requires f.id in Run(START, events).consumed && !Run(START, events).closing
    ensures Step(Run(START, events), Receive(f)).failed
  {
    hide Run, SettleAll, Told;
    StartFine();
    RunKeeps(START, events);
    var s := Run(START, events);
    var i :| 0 <= i < |s.consumed| && s.consumed[i] == f.id;
    InTaken(s.consumed, i);
  }

  // ------------------------------------------------- why a caller is told

  /** The frames that end the transport: for no awaited id, or malformed. */
  predicate Alien(s: State, f: Frame) {
    !f.sound || !(1 <= f.id <= MAX_REQUESTS) || !(f.id in s.pending || f.id in s.retired)
  }

  /** The event settles the call `id` with this outcome. */
  predicate Causes(s: State, e: Event, id: nat, outcome: Outcome) {
    match outcome
    case Answered => e == Receive(Frame(id, true, false))
    case RpcError => e == Receive(Frame(id, true, true))
    case Aborted => e == Abort(id)
    case TimedOut => e == Timeout(id)
    case WriteFailed => e == WriteRefused(id) && id !in s.unsent
    case Failed => e.Fail? || (e.Receive? && Alien(s, e.frame))
    case Closed => e.Close?
  }

  /** While the transport lives a call is settled exactly by an event that
      causes it, with the outcome that event causes. */
  lemma SettledExactly(s: State, e: Event, id: nat, outcome: Outcome)
    requires Inv(s) && id in s.pending
    ensures Causes(s, e, id, outcome) <==>
              Settlement(id, outcome) in Step(s, e).settled && id !in Step(s, e).pending
  {
    hide SettleAll, Inv, TellsAll;
    Untold(s, id);
    assert Settlement(id, outcome) !in s.settled;
    if e.Fail? || (e.Receive? && Alien(s, e.frame)) {
      ToldAll(s.(failed := true), Outcome.Failed, id, outcome);
    } else if e.Close? {
      ToldAll(s.(closing := true), Outcome.Closed, id, outcome);
    }
  }

  lemma Untold(s: State, id: nat)
    requires Inv(s) && id in s.pending
    ensures !s.failed && !s.closing && id !in s.retired && 1 <= id <= MAX_REQUESTS
    ensures forall i :: 0 <= i < |s.settled| ==> s.settled[i].id != id
  {
    hide Told, Taken;
    forall i | 0 <= i < |s.settled| ensures s.settled[i].id != id {
      InTold(s.settled, i);
    }
  }

  /** The calls `ids`, each once, in the order of the ids, with one outcome. */
  predicate TellsAll(more: seq<Settlement>, ids: set<nat>, outcome: Outcome) {
    && (forall i, j :: 0 <= i < j < |more| ==> more[i].id < more[j].id)
    && (forall i :: 0 <= i < |more| ==> more[i].outcome == outcome && more[i].id in ids)
    && (forall id :: id in ids ==> Settlement(id, outcome) in more)
  }

  lemma TellsFirst(more: seq<Settlement>, ids: set<nat>, id: nat, outcome: Outcome)
    requires IsLeast(id, ids) && TellsAll(more, ids - {id}, outcome)
    ensures TellsAll([Settlement(id, outcome)] + more, ids, outcome)
  {
    var all := [Settlement(id, outcome)] + more;
    forall other | other in ids ensures Settlement(other, outcome) in all {
      assert other == id || Settlement(other, outcome) in more;
      assert all[0] == Settlement(id, outcome);
    }
    assert forall i :: 0 <= i < |more| ==> more[i].id != id;
  }

  /** Ending the transport tells every pending caller the same, once, in the
      order of the ids. */
  lemma {:induction false} AllSettled(s: State, outcome: Outcome)
    ensures s.settled <= SettleAll(s, outcome).settled
    ensures TellsAll(SettleAll(s, outcome).settled[|s.settled|..], s.pending, outcome)
    decreases |s.pending|
  {
    hide TellsAll, IsLeast;
    if s.pending == {} {
      TellsNobody(outcome);
      assert s.settled[|s.settled|..] == [];
    } else {
      var id := Least(s.pending);
      LeastIs(s.pending);
      var t := Settle(s, id, outcome);
      AllSettled(t, outcome);
      var all := SettleAll(s, outcome).settled;
      assert all[|s.settled|..] == [Settlement(id, outcome)] + all[|t.settled|..];
      TellsFirst(all[|t.settled|..], s.pending, id, outcome);
    }
  }

  lemma TellsNobody(outcome: Outcome)
    ensures TellsAll([], {}, outcome)
  {
  }

  lemma LeastIs(ids: set<nat>)
    requires ids != {}
    ensures IsLeast(Least(ids), ids)
  {
    SomeLeast(ids);
  }

  lemma ToldAll(s: State, end: Outcome, id: nat, outcome: Outcome)
    requires id in s.pending && forall i :: 0 <= i < |s.settled| ==> s.settled[i].id != id
    ensures Settlement(id, outcome) in SettleAll(s, end).settled <==> outcome == end
  {
    hide SettleAll;
    AllSettled(s, end);
    var all := SettleAll(s, end).settled;
    assert all == s.settled + all[|s.settled|..];
  }

  /** Every settlement of a run was caused by one of its events. */
  lemma {:induction false} OutcomesHaveCauses(events: seq<Event>, k: nat) returns (i: nat)
    requires k < |Run(START, events).settled|
    ensures var one := Run(START, events).settled[k];
            i < |events| && one.id in Run(START, events[..i]).pending
            && Causes(Run(START, events[..i]), events[i], one.id, one.outcome)
    decreases |events|
  {
    hide Run, Causes, Inv, Step;
    if events == [] {
      assert Run(START, []) == START by {
        RunNothing();
      }
      assert false;
    } else {
      var n := |events| - 1;
      RunLast(START, events);
      StartFine();
      RunKeeps(START, events[..n]);
      var s := Run(START, events[..n]);
      Appends(s, events[n]);
      if k < |s.settled| {
        i := OutcomesHaveCauses(events[..n], k);
        assert events[..n][..i] == events[..i];
      } else {
        i := n;
        NewOutcome(s, events[n], k);
      }
    }
  }

  lemma RunNothing()
    ensures Run(START, []) == START
  {
  }

  lemma {:induction false} RunLast(s: State, events: seq<Event>)
    requires events != []
    ensures Run(s, events) == Step(Run(s, events[..|events| - 1]), events[|events| - 1])
    decreases |events|
  {
    hide Step;
    if |events| > 1 {
      RunLast(Step(s, events[0]), events[1..]);
      assert events[1..][..|events| - 2] == events[..|events| - 1][1..];
    } else {
      assert events[..0] == [];
    }
  }

  lemma Appends(s: State, e: Event)
    ensures s.settled <= Step(s, e).settled
  {
    hide SettleAll;
    AllSettled(s.(failed := true), Outcome.Failed);
    AllSettled(s.(closing := true), Outcome.Closed);
  }

  lemma NewOutcome(s: State, e: Event, k: nat)
    requires Inv(s) && |s.settled| <= k < |Step(s, e).settled|
    ensures var one := Step(s, e).settled[k]; one.id in s.pending && Causes(s, e, one.id, one.outcome)
  {
    hide SettleAll, TellsOnce, TakesOnce, Accounted;
    AllSettled(s.(failed := true), Outcome.Failed);
    AllSettled(s.(closing := true), Outcome.Closed);
  }

  // ------------------------------------------------------------- the class

  class StdioTransport {
    var nextId: nat
    var pending: set<nat>
    var retired: set<nat>
    var failed: bool
    var closing: bool
    ghost var settled: seq<Settlement>
    ghost var consumed: seq<nat>
    ghost var unsent: set<nat>

    constructor ()
      ensures Valid() && Model() == START
    {
      nextId, pending, retired, failed, closing, settled, consumed, unsent := 0, {}, {}, false, false, [], [], {};
      new;
      StartFine();
    }

    ghost function Model(): State
      reads this
    {
      State(nextId, pending, retired, failed, closing, settled, consumed, unsent)
    }

    ghost predicate Valid()
      reads this
    {
      Inv(Model())
    }

    method SettleOne(id: nat, outcome: Outcome)
      modifies this`pending, this`settled
      ensures Model() == Settle(old(Model()), id, outcome)
    {
      if id in pending {
        pending := pending - {id};
        settled := settled + [Settlement(id, outcome)];
      }
    }

    /** The loop over the pending ids that ends every open call. */
    method SettleEvery(outcome: Outcome)
      modifies this`pending, this`settled
      ensures Model() == SettleAll(old(Model()), outcome)
    {
      while pending != {}
        invariant SettleAll(Model(), outcome) == SettleAll(old(Model()), outcome)
        decreases |pending|
      {
        SettleOne(Least(pending), outcome);
      }
    }

    /** A request; `fits` is whether its frame is within the write bound. */
    method Issue(allowed: bool, fits: bool) returns (id: nat, sent: bool)
      requires Valid()
      modifies this
      ensures Valid() && Model() == Step(old(Model()), Rpc(allowed, fits))
      ensures id > 0 <==>
                allowed && !old(closing) && !old(failed) && |old(pending)| < MAX_PENDING && old(nextId) < MAX_REQUESTS
      ensures id > 0 ==> id == old(nextId) + 1 && pending == old(pending) + {id} && id !in old(pending)
      ensures id == 0 ==> Model() == old(Model())
      ensures sent <==> id > 0 && fits
    {
      hide Inv, Told, Taken;
      StepKeeps(Model(), Rpc(allowed, fits));
      NextIsNew(Model());
      if !allowed || closing || failed || |pending| >= MAX_PENDING || nextId >= MAX_REQUESTS {
        return 0, false;
      }
      nextId := nextId + 1;
      id := nextId;
      pending := pending + {id};
      sent := fits;
      if !fits {
        unsent := unsent + {id};
      }
    }

    static lemma NextIsNew(s: State)
      requires Inv(s)
      ensures s.nextId + 1 !in s.pending
    {
    }

    /** A caller's abort or timeout, or a write never made. */
    method GiveUp(id: nat, outcome: Outcome)
      requires Valid()
      modifies this
      ensures Valid() && Model() == Retire(old(Model()), id, outcome)
      ensures id !in pending && (id in old(pending) ==> id in retired)
    {
      hide Inv;
      RetireKeeps(Model(), id, outcome);
      if id in pending {
        retired := retired + {id};
        SettleOne(id, outcome);
      }
    }

    method OnFrame(f: Frame)
      requires Valid()
      modifies this
      ensures Valid() && Model() == Step(old(Model()), Receive(f))
    {
      hide Inv, SettleAll;
      StepKeeps(Model(), Receive(f));
      if closing || failed {
        return;
      }
      if !(1 <= f.id <= MAX_REQUESTS) || (f.id !in pending && f.id !in retired) || !f.sound {
        OnFailure();
      } else if f.id in retired {
        retired := retired - {f.id};
        consumed := consumed + [f.id];
      } else {
        consumed := consumed + [f.id];
        SettleOne(f.id, if f.isError then RpcError else Answered);
      }
    }

    method OnFailure()
      requires Valid()
      modifies this
      ensures Valid() && Model() == Step(old(Model()), Event.Fail)
      ensures pending == {}
    {
      hide TellsOnce, TakesOnce, Accounted;
      StepKeeps(Model(), Event.Fail);
      if failed {
        return;
      }
      failed := true;
      SettleEvery(Outcome.Failed);
      closing := true;
    }

    method Shutdown()
      requires Valid()
      modifies this
      ensures Valid() && Model() == Step(old(Model()), Close)
      ensures pending == {}
    {
      hide TellsOnce, TakesOnce, Accounted;
      StepKeeps(Model(), Close);
      if closing {
        return;
      }
      closing := true;
      SettleEvery(Outcome.Closed);
    }
  }
}

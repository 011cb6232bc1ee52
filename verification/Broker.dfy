/** The capability broker: admitted calls hang on a chain of promises. There is
    no lock and no queue; whatever order there is comes from the chain alone. */
module Broker {
  const MAX_CALLS := 256
  const MAX_PENDING := 32

  /** What `tail` may hold: the promise resolved from the start, or the one that
      settles once a call's own reaction has run. */
  datatype Promise = Root | Reaction(call: nat)

  /** A call waits for its turn, runs its handler, has its result settled, and
      at last has its reaction run, which settles its link of the chain. */
  datatype Status = Waiting | Running | Settled | Done

  /** `prev` is the `tail` the call found when it was admitted. */
  datatype Call = Call(prev: Promise, status: Status)

  /** A close and the `tail` it found, which it awaits. */
  datatype Join = Join(target: Promise, resolved: bool)

  /** Calls are numbered as they are admitted; `started` records whose handlers
      were started, in order. */
  datatype State = State(
    calls: nat, pending: nat, chain: seq<Call>, tail: Promise, revoked: bool, joins: seq<Join>, started: seq<nat>)

  /** Any call may be named by an event; the event happens only if what it
      reacts to has happened. */
  datatype Event =
    | Invoke(active: bool, known: bool, valid: bool)
    | Turn(call: nat, active: bool, parses: bool, still: bool)
    | HandlerEnds(call: nat)
    | React(call: nat)
    | Revoke
    | BeginClose
    | EndClose(join: nat)

  const START := State(0, 0, [], Root, false, [], [])

  // ---------------------------------------------------------- one event

  predicate Resolved(chain: seq<Call>, p: Promise) {
    p.Root? || (p.call < |chain| && chain[p.call].status.Done?)
  }

  function Mark(s: State, k: nat, status: Status): State
    requires k < |s.chain|
  {
    s.(chain := s.chain[k := s.chain[k].(status := status)])
  }

  /** An attempt is counted before the limits are tested, so a refused one uses up a call. */
  function InvokeStep(s: State, active: bool, known: bool, valid: bool): State {
    if s.revoked || !active || !known then s
    else
      var counted := s.(calls := s.calls + 1);
      if s.calls + 1 > MAX_CALLS || s.pending >= MAX_PENDING || !valid then counted
      else
        counted.(pending := s.pending + 1, chain := s.chain + [Call(s.tail, Waiting)], tail := Reaction(|s.chain|))
  }

  /** The callback on the promise a call found: it starts the handler, or
      settles the result when the broker is revoked or the input unreadable. */
  function TurnStep(s: State, k: nat, active: bool, parses: bool, still: bool): State {
    if k >= |s.chain| || !s.chain[k].status.Waiting? || !Resolved(s.chain, s.chain[k].prev) then s
    else if s.revoked || !active || !parses || !still then Mark(s, k, Settled)
    else Mark(s, k, Running).(started := s.started + [k])
  }

  function EndStep(s: State, k: nat): State {
    if k < |s.chain| && s.chain[k].status.Running? then Mark(s, k, Settled) else s
  }

  /** The reaction to a result, whether it succeeded or failed. */
  function ReactStep(s: State, k: nat): State {
    if k < |s.chain| && s.chain[k].status.Settled?
    then Mark(s, k, Done).(pending := if s.pending > 0 then s.pending - 1 else 0)
    else s
  }

  function Step(s: State, e: Event): State {
    match e
    case Invoke(active, known, valid) => InvokeStep(s, active, known, valid)
    case Turn(k, active, parses, still) => TurnStep(s, k, active, parses, still)
    case HandlerEnds(k) => EndStep(s, k)
    case React(k) => ReactStep(s, k)
    case Revoke => s.(revoked := true)
    case BeginClose => s.(revoked := true, joins := s.joins + [Join(s.tail, false)])
    case EndClose(j) =>
      if j < |s.joins| && Resolved(s.chain, s.joins[j].target)
      then s.(joins := s.joins[j := s.joins[j].(resolved := true)])
      else s
  }

  function Run(s: State, events: seq<Event>): State
    decreases |events|
  {
    if events == [] then s else Run(Step(s, events[0]), events[1..])
  }

  // ---------------------------------------------------------- invariant

  /** The promise the `k`-th admitted call must have found. */
  function Link(k: nat): Promise {
    if k == 0 then Root else Reaction(k - 1)
  }

  /** How many calls have not had their reaction run. */
  function Open(chain: seq<Call>): nat {
    if chain == [] then 0
    else Open(chain[..|chain| - 1]) + if chain[|chain| - 1].status.Done? then 0 else 1
  }

  /** A call that has had its turn has only finished calls before it. */
  predicate InOrder(chain: seq<Call>) {
    forall j, k :: 0 <= j < k < |chain| && !chain[k].status.Waiting? ==> chain[j].status.Done?
  }

  predicate Linked(s: State) {
    (forall k :: 0 <= k < |s.chain| ==> s.chain[k].prev == Link(k)) && s.tail == Link(|s.chain|)
  }

  predicate Ascending(ids: seq<nat>) {
    forall i, j :: 0 <= i < j < |ids| ==> ids[i] < ids[j]
  }

  predicate StartedInv(chain: seq<Call>, started: seq<nat>) {
    && Ascending(started)
    && (forall i :: 0 <= i < |started| ==> started[i] < |chain| && !chain[started[i]].status.Waiting?)
    && (forall k :: 0 <= k < |chain| && chain[k].status.Running? ==> started != [] && started[|started| - 1] == k)
  }

  predicate JoinInv(s: State) {
    && (s.joins != [] ==> s.revoked)
    && (forall i :: 0 <= i < |s.joins| ==>
          s.joins[i].target == s.tail && (s.joins[i].resolved ==> Resolved(s.chain, s.tail)))
  }

  predicate Inv(s: State) {
    && Linked(s) && InOrder(s.chain) && StartedInv(s.chain, s.started) && JoinInv(s)
    && s.pending == Open(s.chain) <= MAX_PENDING && |s.chain| <= s.calls && |s.chain| <= MAX_CALLS
  }

  lemma {:induction false} OpenMark(chain: seq<Call>, k: nat, c: Call)
    requires k < |chain|
    ensures Open(chain[k := c]) + (if chain[k].status.Done? then 0 else 1)
         == Open(chain) + (if c.status.Done? then 0 else 1)
  {
    var n := |chain| - 1;
    if k < n {
      OpenMark(chain[..n], k, c);
      assert chain[k := c][..n] == chain[..n][k := c];
    } else {
      assert chain[k := c][..n] == chain[..n];
    }
  }

  /** A call whose promise has resolved finds every earlier call finished. */
  lemma EarlierDone(s: State, k: nat)
    requires Linked(s) && InOrder(s.chain) && k <= |s.chain| && Resolved(s.chain, Link(k))
    ensures forall j :: 0 <= j < k ==> s.chain[j].status.Done?
  {
  }

  /** A new call waits, is open, and is not among the started. */
  lemma AdmitKeeps(chain: seq<Call>, c: Call, started: seq<nat>)
    requires c.status.Waiting? && StartedInv(chain, started)
    ensures Open(chain + [c]) == Open(chain) + 1 && StartedInv(chain + [c], started)
  {
    hide Ascending;
    assert (chain + [c])[..|chain|] == chain;
  }

  lemma InvokeKeeps(s: State, active: bool, known: bool, valid: bool)
    requires Inv(s)
    ensures Inv(InvokeStep(s, active, known, valid))
  {
    hide Resolved, Open, StartedInv;
    var t := InvokeStep(s, active, known, valid);
    if |t.chain| > |s.chain| {
      AdmitKeeps(s.chain, Call(s.tail, Waiting), s.started);
      assert s.joins == [];
    }
  }

  /** Marking a call keeps the links, and the order if the call may move. */
  lemma MarkKeeps(s: State, k: nat, status: Status)
    requires Linked(s) && InOrder(s.chain) && JoinInv(s)
    requires k < |s.chain| && !s.chain[k].status.Done? && !status.Waiting?
    requires Resolved(s.chain, s.chain[k].prev) || !s.chain[k].status.Waiting?
    ensures var t := Mark(s, k, status); Linked(t) && InOrder(t.chain) && JoinInv(t)
    ensures Open(Mark(s, k, status).chain) == Open(s.chain) - if status.Done? then 1 else 0
  {
    hide Ascending, Open;
    OpenMark(s.chain, k, s.chain[k].(status := status));
    if s.chain[k].status.Waiting? {
      EarlierDone(s, k);
    }
  }

  lemma StartKeeps(s: State, k: nat)
    requires InOrder(s.chain) && StartedInv(s.chain, s.started) && k < |s.chain| && s.chain[k].status.Waiting?
    requires forall j :: 0 <= j < k ==> s.chain[j].status.Done?
    ensures StartedInv(Mark(s, k, Running).chain, s.started + [k])
  {
    forall i | 0 <= i < |s.started| ensures s.started[i] < k {
      assert !s.chain[s.started[i]].status.Waiting?;
    }
  }

  lemma TurnKeeps(s: State, k: nat, active: bool, parses: bool, still: bool)
    requires Inv(s)
    ensures Inv(TurnStep(s, k, active, parses, still))
  {
    hide Open, Ascending;
    if k < |s.chain| && s.chain[k].status.Waiting? && Resolved(s.chain, s.chain[k].prev) {
      EarlierDone(s, k);
      MarkKeeps(s, k, Settled);
      MarkKeeps(s, k, Running);
      StartKeeps(s, k);
    }
  }

  lemma EndKeeps(s: State, k: nat)
    requires Inv(s)
    ensures Inv(EndStep(s, k)) && Inv(ReactStep(s, k))
  {
    hide Open, Ascending;
    if k < |s.chain| && s.chain[k].status.Running? {
      MarkKeeps(s, k, Settled);
    } else if k < |s.chain| && s.chain[k].status.Settled? {
      MarkKeeps(s, k, Done);
    }
  }

  lemma CloseKeeps(s: State, e: Event)
    requires Inv(s) && (e.Revoke? || e.BeginClose? || e.EndClose?)
    ensures Inv(Step(s, e))
  {
    hide Open, InOrder, StartedInv, Resolved;
  }

  lemma StepKeeps(s: State, e: Event)
    requires Inv(s)
    ensures Inv(Step(s, e))
  {
    hide Open, Ascending, InvokeStep, TurnStep, EndStep, ReactStep, InOrder, Linked, StartedInv;
    match e
    case Invoke(active, known, valid) => InvokeKeeps(s, active, known, valid);
    case Turn(k, active, parses, still) => TurnKeeps(s, k, active, parses, still);
    case HandlerEnds(k) => EndKeeps(s, k);
    case React(k) => EndKeeps(s, k);
    case _ => CloseKeeps(s, e);
  }

  lemma {:induction false} RunKeeps(s: State, events: seq<Event>)
    requires Inv(s)
    ensures Inv(Run(s, events))
    decreases |events|
  {
    hide Inv, Step;
    if events != [] {
      StepKeeps(s, events[0]);
      RunKeeps(Step(s, events[0]), events[1..]);
    }
  }

  lemma StartFine()
    ensures Inv(START)
  {
  }

  // --------------------------------------------------------- main results

  /** In every run at most one call is running. */
  lemma OneAtATime(events: seq<Event>, j: nat, k: nat)
    requires j < |Run(START, events).chain| && Run(START, events).chain[j].status.Running?
    requires k < |Run(START, events).chain| && Run(START, events).chain[k].status.Running?
    ensures j == k
  {
    hide Run, Linked, JoinInv, Open, Resolved, StartedInv;
    StartFine();
    RunKeeps(START, events);
  }

  /** Handlers start in admission order, each at most once, and a handler has
      started only after every call admitted earlier was settled and its
      reaction run. */
  lemma HandlersInOrder(events: seq<Event>)
    ensures var s := Run(START, events);
            && Ascending(s.started)
            && forall i, j :: 0 <= i < |s.started| && 0 <= j < s.started[i] ==>
                 s.started[i] < |s.chain| && s.chain[j].status.Done?
  {
    hide Run, Linked, JoinInv, Open, Resolved, Ascending;
    StartFine();
    RunKeeps(START, events);
  }

  /** `pending` is the number of calls whose reaction has not run, at most 32;
      at most 256 calls are ever admitted, however many are attempted. */
  lemma LimitsHold(events: seq<Event>)
    ensures var s := Run(START, events);
            s.pending == Open(s.chain) <= 32 && |s.chain| <= 256
  {
    hide Run, Linked, JoinInv, InOrder, StartedInv, Open;
    StartFine();
    RunKeeps(START, events);
  }

  predicate Quiet(chain: seq<Call>) {
    forall k :: 0 <= k < |chain| ==> chain[k].status.Done?
  }

  lemma QuietStays(s: State, e: Event)
    requires s.revoked && Quiet(s.chain)
    ensures Step(s, e).revoked && Step(s, e).chain == s.chain && Step(s, e).started == s.started
  {
  }

  lemma {:induction false} QuietForEver(s: State, later: seq<Event>)
    requires s.revoked && Quiet(s.chain)
    ensures Run(s, later).chain == s.chain && Run(s, later).started == s.started
    decreases |later|
  {
    hide Step, Quiet;
    if later != [] {
      QuietStays(s, later[0]);
      QuietForEver(Step(s, later[0]), later[1..]);
    }
  }

  /** Once any close has resolved every admitted call is finished, and in no
      continuation is a call admitted or a handler started. */
  lemma CloseResolvesQuiet(events: seq<Event>, j: nat, later: seq<Event>)
    requires j < |Run(START, events).joins| && Run(START, events).joins[j].resolved
    ensures var s := Run(START, events);
            Quiet(s.chain) && Run(s, later).chain == s.chain && Run(s, later).started == s.started
  {
    hide Run, StartedInv, Open;
    StartFine();
    RunKeeps(START, events);
    var s := Run(START, events);
    EarlierDone(s, |s.chain|);
    QuietForEver(s, later);
  }

  /** What the runtime can do next for a call. */
  predicate Enabled(s: State, k: nat)
    requires k < |s.chain|
  {
    match s.chain[k].status
    case Waiting => Resolved(s.chain, s.chain[k].prev)
    case Done => false
    case _ => true
  }

  /** The chain never stalls: while a call is pending, some call can go on. */
  lemma NeverStalls(s: State) returns (k: nat)
    requires Inv(s) && s.pending > 0
    ensures k < |s.chain| && Enabled(s, k) && forall j :: 0 <= j < k ==> s.chain[j].status.Done?
  {
    hide StartedInv, JoinInv, InOrder, Open;
    k := 0;
    while k < |s.chain| && s.chain[k].status.Done?
      invariant k <= |s.chain| && forall j :: 0 <= j < k ==> s.chain[j].status.Done?
    {
      k := k + 1;
    }
    if k == |s.chain| {
      AllDone(s.chain);
    }
  }

  lemma {:induction false} AllDone(chain: seq<Call>)
    requires Quiet(chain)
    ensures Open(chain) == 0
  {
    if chain != [] {
      AllDone(chain[..|chain| - 1]);
    }
  }

  // ------------------------------------------ what happened, event by event

  ghost predicate Revoked(events: seq<Event>) {
    exists i :: 0 <= i < |events| && (events[i].Revoke? || events[i].BeginClose?)
  }

  /** The invocation before which nothing was revoked, of a known tool by an active run. */
  ghost predicate Attempt(events: seq<Event>, i: nat)
    requires i < |events|
  {
    events[i].Invoke? && events[i].active && events[i].known && !Revoked(events[..i])
  }

  ghost function Attempts(events: seq<Event>): nat {
    if events == [] then 0
    else Attempts(events[..|events| - 1]) + if Attempt(events, |events| - 1) then 1 else 0
  }

  lemma {:induction false} RunLast(s: State, events: seq<Event>)
    requires events != []
    ensures Run(s, events) == Step(Run(s, events[..|events| - 1]), events[|events| - 1])
    decreases |events|
  {
    hide Step;
    if |events| > 1 {
      RunLast(Step(s, events[0]), events[1..]);
      assert events[1..][..|events| - 2] == events[..|events| - 1][1..];
    } else {
      assert events[..0] == [];
    }
  }

  lemma RevokedLast(events: seq<Event>)
    requires events != []
    ensures var last := events[|events| - 1];
            Revoked(events) <==> Revoked(events[..|events| - 1]) || last.Revoke? || last.BeginClose?
  {
    var front := events[..|events| - 1];
    assert forall i :: 0 <= i < |front| ==> front[i] == events[i];
  }

  /** In every run the broker is revoked exactly after a revocation or a
      close, and the calls counted are the attempts made before it. */
  lemma {:induction false} CallsAreAttempts(events: seq<Event>)
    ensures Run(START, events).revoked <==> Revoked(events)
    ensures Run(START, events).calls == Attempts(events)
    decreases |events|
  {
    hide Run, Revoked, Resolved;
    if events == [] {
      assert !Revoked([]) by {
        NothingRevoked();
      }
      assert Run(START, []) == START by {
        RunNothing();
      }
    } else {
      CallsAreAttempts(events[..|events| - 1]);
      RunLast(START, events);
      RevokedLast(events);
    }
  }

  lemma NothingRevoked()
    ensures !Revoked([])
  {
  }

  lemma RunNothing()
    ensures Run(START, []) == START
  {
  }

  /** After any run an invocation is admitted exactly when nothing was revoked,
      the run is active, the tool known and its input valid, fewer than 256
      attempts were made before and fewer than 32 admitted calls are open.
      Nothing else is ever admitted. */
  lemma AdmittedExactly(events: seq<Event>, e: Event)
    ensures var s, t := Run(START, events), Run(START, events + [e]);
            && |t.chain| == |s.chain| + (if Admissible(events, e) then 1 else 0)
            && (Admissible(events, e) ==> t.chain == s.chain + [Call(Link(|s.chain|), Waiting)])
  {
    hide Run, Inv, Revoked, Attempts, Open, Resolved;
    var longer := events + [e];
    assert longer[..|longer| - 1] == events;
    RunLast(START, longer);
    CallsAreAttempts(events);
    StartFine();
    RunKeeps(START, events);
    PendingIsOpen(Run(START, events));
  }

  ghost predicate Admissible(events: seq<Event>, e: Event) {
    && e.Invoke? && e.active && e.known && e.valid && !Revoked(events)
    && Attempts(events) < 256 && Open(Run(START, events).chain) < 32
  }

  lemma PendingIsOpen(s: State)
    requires Inv(s)
    ensures s.pending == Open(s.chain) && s.tail == Link(|s.chain|)
  {
  }

  /** A handler starts exactly at a turn of an admitted call, when every call
      admitted before it is finished, nothing was revoked, the run is still
      active before and after its input was parsed, and the input parses. */
  lemma StartsExactly(events: seq<Event>, e: Event)
    ensures var s, t := Run(START, events), Run(START, events + [e]);
            t.started == if Startable(events, e) then s.started + [e.call] else s.started
  {
    hide Run, Inv, Revoked, Open, Resolved;
    var longer := events + [e];
    assert longer[..|longer| - 1] == events;
    RunLast(START, longer);
    CallsAreAttempts(events);
    StartFine();
    RunKeeps(START, events);
    if e.Turn? && e.call < |Run(START, events).chain| {
      TurnComes(Run(START, events), e.call);
    }
  }

  ghost predicate Startable(events: seq<Event>, e: Event) {
    var chain := Run(START, events).chain;
    && e.Turn? && e.active && e.parses && e.still && !Revoked(events)
    && e.call < |chain| && chain[e.call].status.Waiting? && forall j :: 0 <= j < e.call ==> chain[j].status.Done?
  }

  lemma TurnComes(s: State, k: nat)
    requires Inv(s) && k < |s.chain|
    ensures Resolved(s.chain, s.chain[k].prev) <==> forall j :: 0 <= j < k ==> s.chain[j].status.Done?
  {
    hide StartedInv, JoinInv, Open;
    if Resolved(s.chain, s.chain[k].prev) {
      EarlierDone(s, k);
    }
  }

  // ------------------------------------------------------------- the class

  class CapabilityBroker {
    var calls: nat
    var pending: nat
    var chain: seq<Call>
    var tail: Promise
    var revoked: bool
    var joins: seq<Join>
    ghost var started: seq<nat>

    ghost function Model(): State
      reads this
    {
      State(calls, pending, chain, tail, revoked, joins, started)
    }

    ghost predicate Valid()
      reads this
    {
      Inv(Model())
    }

    constructor ()
      ensures Valid() && Model() == START
    {
      calls, pending, chain, tail, revoked, joins, started := 0, 0, [], Root, false, [], [];
      new;
      StartFine();
    }

    /** Admission: the call hangs itself on the present tail and becomes the new one. */
    method InvokeCall(active: bool, known: bool, valid: bool) returns (admitted: bool)
      requires Valid()
      modifies this
      ensures Valid() && Model() == Step(old(Model()), Invoke(active, known, valid))
      ensures admitted <==>
                active && known && valid && !old(revoked) && old(calls) < MAX_CALLS && old(pending) < MAX_PENDING
      ensures calls == old(calls) + if active && known && !old(revoked) then 1 else 0
      ensures chain == if admitted then old(chain) + [Call(old(tail), Waiting)] else old(chain)
    {
      hide Inv;
      StepKeeps(Model(), Invoke(active, known, valid));
      if revoked || !active || !known {
        return false;
      }
      calls := calls + 1;
      if calls > MAX_CALLS || pending >= MAX_PENDING || !valid {
        return false;
      }
      pending := pending + 1;
      chain, tail := chain + [Call(tail, Waiting)], Reaction(|chain|);
      admitted := true;
    }

    /** The callback of a call, up to its handler. A handler starts only with
        every earlier call finished and none running. */
    method TakeTurn(k: nat, active: bool, parses: bool, still: bool) returns (starts: bool)
      requires Valid() && k < |chain| && chain[k].status.Waiting? && Resolved(chain, chain[k].prev)
      modifies this
      ensures Valid() && Model() == Step(old(Model()), Turn(k, active, parses, still))
      ensures starts <==> active && parses && still && !revoked
      ensures chain[k].status == (if starts then Running else Settled)
      ensures starts ==> forall j :: 0 <= j < |chain| && j != k ==> !chain[j].status.Running?
    {
      hide Inv, Resolved;
      StepKeeps(Model(), Turn(k, active, parses, still));
      if revoked || !active || !parses || !still {
        chain := chain[k := chain[k].(status := Settled)];
        return false;
      }
      chain := chain[k := chain[k].(status := Running)];
      started := started + [k];
      OnlyOne(Model(), k);
      starts := true;
    }

    static lemma OnlyOne(s: State, k: nat)
      requires Inv(s) && k < |s.chain| && s.chain[k].status.Running?
      ensures forall j :: 0 <= j < |s.chain| && j != k ==> !s.chain[j].status.Running?
    {
    }

    method OnHandlerEnd(k: nat)
      requires Valid() && k < |chain| && chain[k].status.Running?
      modifies this
      ensures Valid() && Model() == Step(old(Model()), HandlerEnds(k))
    {
      hide Inv;
      StepKeeps(Model(), HandlerEnds(k));
      chain := chain[k := chain[k].(status := Settled)];
    }

    method OnReaction(k: nat)
      requires Valid() && k < |chain| && chain[k].status.Settled?
      modifies this
      ensures Valid() && Model() == Step(old(Model()), React(k))
    {
      hide Inv;
      StepKeeps(Model(), React(k));
      chain := chain[k := chain[k].(status := Done)];
      if pending > 0 {
        pending := pending - 1;
      }
    }

    method RequestClose() returns (join: nat)
      requires Valid()
      modifies this
      ensures Valid() && Model() == Step(old(Model()), BeginClose)
      ensures revoked && join < |joins| && joins[join].target == old(tail)
    {
      hide Inv;
      StepKeeps(Model(), BeginClose);
      revoked, join := true, |joins|;
      joins := joins + [Join(tail, false)];
    }

    /** A close returns only when everything admitted has finished. */
    method FinishClose(join: nat)
      requires Valid() && join < |joins| && Resolved(chain, joins[join].target)
      modifies this
      ensures Valid() && Model() == Step(old(Model()), EndClose(join))
      ensures Quiet(chain) && revoked
    {
      hide StartedInv, Open;
      StepKeeps(Model(), EndClose(join));
      EarlierDone(Model(), |chain|);
      joins := joins[join := joins[join].(resolved := true)];
    }
  }
}

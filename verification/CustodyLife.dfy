/** That the runs are not empty of interest: either launcher can launch, end and release its lock. */
module CustodyLife {
  import opened Custody
  import opened CustodyRuns

  ghost predicate Reachable(s: State) {
    exists events :: Run(EMPTY, events) == s
  }

  lemma {:induction false} RunOneMore(s: State, events: seq<Event>, e: Event)
    ensures Run(s, events + [e]) == Apply(Run(s, events), e)
    decreases |events|
  {
    hide Apply;
    if events == [] {
      assert events + [e] == [e];
      assert Run(s, [e]) == Run(Apply(s, e), [e][1..]);
    } else {
      assert (events + [e])[1..] == events[1..] + [e];
      RunOneMore(Apply(s, events[0]), events[1..], e);
    }
  }

  lemma Then(s: State, e: Event)
    requires Reachable(s)
    ensures Reachable(Apply(s, e))
  {
    hide Run, Apply;
    var events :| Run(EMPTY, events) == s;
    RunOneMore(EMPTY, events, e);
  }

  function Alone(o: Owner, lock: Lock): State {
    State(map[0 := o], lock, [])
  }

  /** One step of the only owner, short of the unlink. */
  lemma Moves(o: Owner, lock: Lock, m: Move)
    requires Reachable(Alone(o, lock)) && EffectOf(o, ViewOf(lock, 0), m) != Unlink
    ensures Reachable(Alone(Step(o, ViewOf(lock, 0), m), Touch(lock, 0, EffectOf(o, ViewOf(lock, 0), m))))
  {
    hide Step, EffectOf, Touch, Reachable;
    var s, t := Alone(o, lock), Step(o, ViewOf(lock, 0), m);
    Then(s, Act(0, m));
    assert s.owners[0 := t] == map[0 := t];
  }

  /** A step that leaves the lock file alone. */
  lemma Goes(o: Owner, m: Move)
    requires Reachable(Alone(o, Present(0, true))) && EffectOf(o, Mine(true), m) == Untouched
    ensures Reachable(Alone(Step(o, Mine(true), m), Present(0, true)))
  {
    hide Step, EffectOf, Reachable;
    Moves(o, Present(0, true), m);
  }

  function WithRecord(o: Owner): Owner {
    o.(journal := o.journal.(records := o.journal.records + [o.state]))
  }

  /** What the four records of a launch say: prepared, about to launch, the
      process known, and running. */
  function LaunchRecords(): seq<Knowledge> {
    var pending := Knowledge(LaunchPending, true, false, false, false, false);
    [Knowledge(Preparing, false, false, false, false, false), pending, pending, pending.(phase := Running)]
  }

  /** An owner whose process runs in a group of its own. */
  function RunningOwner(kind: Kind): Owner {
    Owner(kind, false, Done, Idle, Knowledge(Running, true, false, false, false, false),
      Journal(true, false, LaunchRecords()), false, true, false, false, Child(true, true), Group(true, false))
  }

  /** The same owner once its process has ended and a stop is asked for. */
  function EndedOwner(kind: Kind): Owner {
    var o := RunningOwner(kind);
    o.(group := Group(false, false), state := o.state.(rootExited := true), streamsClosed := true,
       closing := true, stop := Waiting)
  }

  const FINE := Prepare(true, true)
  const ON := Proceed(true, true)

  /** The lock taken and the first record written. */
  lemma Locked(kind: Kind) returns (o: Owner)
    ensures Reachable(Alone(o, Present(0, true)))
    ensures o == Newcomer(kind).(prep := Recorded, lockOwned := true,
        journal := Journal(true, false, [Newcomer(kind).state]))
  {
    hide Reachable;
    var o0 := Newcomer(kind);
    assert Reachable(EMPTY) by {
      NothingReached();
    }
    Then(EMPTY, Arrive(0, kind));
    assert Apply(EMPTY, Arrive(0, kind)) == Alone(o0, Absent);
    var o1 := o0.(journal := Journal(true, false, []), prep := Journaled);
    Moves(o0, Absent, FINE);
    var o2 := o1.(lockOwned := true, prep := Created);
    Moves(o1, Absent, FINE);
    Moves(o2, Present(0, false), FINE);
    Goes(o2.(prep := Written), FINE);
    o := WithRecord(o2).(prep := Recorded);
  }

  lemma NothingReached()
    ensures Reachable(EMPTY)
  {
    assert Run(EMPTY, []) == EMPTY;
  }

  /** A preparation whose calls all succeed ends with the process running,
      the lock whole and the four records written. */
  lemma Launched(kind: Kind)
    ensures Reachable(Alone(RunningOwner(kind), Present(0, true)))
  {
    hide Reachable;
    var o1 := Locked(kind);
    Goes(o1, FINE);
    var o2 := o1.(state := o1.state.(phase := LaunchPending, launchAttempted := true), prep := Pending);
    Goes(o2, FINE);
    var o3 := WithRecord(o2).(prep := Durable);
    Goes(o3, Spawn(ReturnedWithPid));
    var o4 := o3.(child := Child(true, false), group := Group(true, false), prep := Spawned);
    Goes(o4, FINE);
    var o5 := WithRecord(o4).(prep := Noted);
    Goes(o5, FINE);
    var o6 := o5.(child := Child(true, true), prep := Grouped);
    Goes(o6, FINE);
    assert WithRecord(o6.(state := o6.state.(phase := Running))).(prep := Done) == RunningOwner(kind);
  }

  /** The process has ended, both events have come and a stop is asked for. */
  lemma Stopping(kind: Kind)
    ensures Reachable(Alone(EndedOwner(kind), Present(0, true)))
  {
    hide Reachable;
    Launched(kind);
    var o1 := RunningOwner(kind);
    Goes(o1, RootExits);
    var o2 := o1.(group := Group(false, false));
    Goes(o2, ExitEvent);
    var o3 := o2.(state := o2.state.(rootExited := true));
    Goes(o3, CloseEvent(false));
    var o4 := o3.(streamsClosed := true);
    Goes(o4, BeginStop);
  }

  /** The stop has made its proof and recorded it. */
  lemma AboutToUnlink(kind: Kind) returns (o: Owner)
    ensures Reachable(Alone(o, Present(0, true))) && o.stop.Unlinking? && !o.crashed && o.kind == kind
    ensures o.state.launchAttempted && !Alive(o.group)
  {
    hide Reachable;
    Stopping(kind);
    var o5 := EndedOwner(kind);
    Goes(o5, ON);
    Goes(o5.(stop := Probing), ON);
    var o6 := o5.(state := o5.state.(groupAbsent := true), stop := Joining);
    Goes(o6, ON);
    var o7 := o6.(state := o6.state.(joined := true), stop := Verifying);
    Goes(o7, ON);
    var o8 := o7.(stop := Recording);
    Goes(o8, ON);
    o := Step(o8, Mine(true), ON);
  }

  /** Either launcher has a run in which it launches a process and, after its
      end, removes its own lock. */
  lemma Released(kind: Kind) returns (s: State)
    ensures Reachable(s) && s.lock == Absent && |s.removals| == 1 && s.removals[0].owner == 0
    ensures 0 in s.owners && s.owners[0].kind == kind && s.owners[0].state.launchAttempted && !Alive(s.owners[0].group)
  {
    hide Reachable;
    var o := AboutToUnlink(kind);
    s := Apply(Alone(o, Present(0, true)), Act(0, ON));
    Then(Alone(o, Present(0, true)), Act(0, ON));
  }
}

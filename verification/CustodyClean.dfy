/** The stop that nothing disturbs: a settled owner whose process is gone and
    whose calls all succeed ends closed, its lock released and on record. */
module CustodyClean {
  import opened Custody
  import opened CustodyRuns
  import opened CustodyEnds

  /** How a step's system call ends: whether it succeeds and, if not, whether
      it took effect all the same. For the group probe the second part is the answer. */
  datatype Reply = Reply(ok: bool, effect: bool)

  datatype Outcome = Outcome(owner: Owner, lock: Lock)

  /** The model's owner and lock after its steps with these replies and nothing in between. */
  function Proceeds(id: nat, o: Owner, lock: Lock, replies: seq<Reply>): Outcome
    decreases |replies|
  {
    if replies == [] then Outcome(o, lock)
    else
      var move := Proceed(replies[0].ok, replies[0].effect);
      var view := ViewOf(lock, id);
      Proceeds(id, Step(o, view, move), Touch(lock, id, EffectOf(o, view, move)), replies[1..])
  }

  // --------------------------------------------------- what is to be shown

  /** Enough replies, and each says that the call succeeded. */
  predicate AllFine(replies: seq<Reply>, n: nat) {
    |replies| >= n && forall i :: 0 <= i < |replies| ==> replies[i] == Reply(true, true)
  }

  /** The preparation is over and the process gone, if there ever was one. */
  predicate Stoppable(o: Owner) {
    && Settled(o.prep) && !o.crashed && o.stop.Idle? && o.state.rootExited && !o.journal.failed
    && (if o.child.Child? then
          o.streamsClosed && !Alive(o.group) && (o.child == Child(true, true) || o.state.groupAbsent)
        else !o.state.launchAttempted && o.state.groupAbsent)
  }

  /** The owner holds its whole lock and has room for two records. */
  predicate Releasable(o: Owner, lock: Lock, id: nat) {
    && Stoppable(o) && o.lockOwned && !o.pendingReleaseSync && lock == Present(id, true)
    && o.journal.open && |o.journal.records| + 2 <= MAX_RECORDS
  }

  /** The owner holds no lock: it never had one, or it has removed it and owes the sync. */
  predicate Lockless(o: Owner) {
    && Stoppable(o) && !o.lockOwned && (o.journal.open ==> |o.journal.records| < MAX_RECORDS)
    && ((o.kind == Managed && o.pendingReleaseSync) || (!o.pendingReleaseSync && !o.state.launchAttempted))
  }

  /** What the owner knows once everything is joined. */
  function Known(o: Owner): Knowledge {
    o.state.(groupAbsent := true, joined := true)
  }

  function Final(o: Owner): Knowledge {
    Known(o).(phase := Closed, lockReleased := true)
  }

  /** The end of a stop that releases: the lock is gone, the release was
      recorded before, and the managed launcher records the end as well. */
  function ReleasedEnd(o: Owner): Owner {
    var release := Known(o).(phase := if o.kind == Managed then ReleasePending else Closed);
    o.(closing := true, stop := Ended, lockOwned := false, state := Final(o),
       journal := Journal(false, false,
                          o.journal.records + if o.kind == Managed then [release, Final(o)] else [release]))
  }

  /** The end of a stop without a lock: nothing is removed, and only the managed
      launcher still writes its last record. */
  function QuietEnd(o: Owner): Owner {
    o.(closing := true, stop := Ended, pendingReleaseSync := false, state := Final(o),
       journal := Journal(false, false,
                          o.journal.records + if o.kind == Managed && o.journal.open then [Final(o)] else []))
  }

  // -------------------------------------------------------------- step by step

  lemma FineStep(id: nat, o: Owner, lock: Lock, replies: seq<Reply>, n: nat)
    requires n > 0 && AllFine(replies, n) && !o.crashed
    ensures AllFine(replies[1..], n - 1)
    ensures Proceeds(id, o, lock, replies)
         == Proceeds(id, StopStep(o, ViewOf(lock, id), true, true), if o.stop.Unlinking? then Absent else lock,
                     replies[1..])
  {
    hide StopStep;
  }

  lemma {:induction false} EndedStays(id: nat, o: Owner, lock: Lock, replies: seq<Reply>)
    requires AllFine(replies, 0) && !o.crashed && o.stop.Ended?
    ensures Proceeds(id, o, lock, replies) == Outcome(o, lock)
    decreases |replies|
  {
    if replies != [] {
      FineStep(id, o, lock, replies, 1);
      EndedStays(id, o, lock, replies[1..]);
    }
  }

  function Begun(o: Owner): Owner {
    o.(closing := true, stop := Waiting)
  }

  /** The wait, the probe and the join. */
  lemma Joins(id: nat, o: Owner, lock: Lock, replies: seq<Reply>, n: nat)
    requires Stoppable(o) && n >= 3 && AllFine(replies, n)
    ensures AllFine(replies[3..], n - 3)
    ensures Proceeds(id, Begun(o), lock, replies)
         == Proceeds(id, AfterJoin(Begun(o).(stop := Joining, state := o.state.(groupAbsent := true))), lock,
                     replies[3..])
  {
    hide AfterJoin, Proceeds;
    var probing := Begun(o).(stop := Probing);
    var joining := Begun(o).(stop := Joining, state := o.state.(groupAbsent := true));
    FineStep(id, Begun(o), lock, replies, n);
    assert StopStep(Begun(o), ViewOf(lock, id), true, true) == probing;
    FineStep(id, probing, lock, replies[1..], n - 1);
    assert StopStep(probing, ViewOf(lock, id), true, true) == joining by {
      ProbeProves(o);
    }
    FineStep(id, joining, lock, replies[1..][1..], n - 2);
    assert replies[1..][1..][1..] == replies[3..];
  }

  lemma ProbeProves(o: Owner)
    requires Stoppable(o)
    ensures ProbeStep(Begun(o).(stop := Probing), true, true)
         == Begun(o).(stop := Joining, state := o.state.(groupAbsent := true))
  {
  }

  /** From the join on, with the owner as it then is. */
  function AtVerify(o: Owner): Owner {
    Begun(o).(stop := Verifying, state := Known(o))
  }

  /** The lock is verified, the release recorded, the lock removed. */
  lemma Releases(id: nat, o: Owner, lock: Lock, replies: seq<Reply>, n: nat)
    requires Releasable(o, lock, id) && n >= 3 && AllFine(replies, n)
    ensures AllFine(replies[3..], n - 3)
    ensures var release := Known(o).(phase := if o.kind == Managed then ReleasePending else Closed);
            var recorded := AtVerify(o).(stop := Unlinking, state := release,
                                         journal := o.journal.(records := o.journal.records + [release]));
            Proceeds(id, AtVerify(o), lock, replies) == Proceeds(id, Unlinked(recorded), Absent, replies[3..])
  {
    hide Unlinked, Proceeds, Known, Stoppable;
    assert !o.crashed && !o.journal.failed by {
      StoppableSound(o);
    }
    var release := Known(o).(phase := if o.kind == Managed then ReleasePending else Closed);
    var recording := AtVerify(o).(stop := Recording);
    var recorded := AtVerify(o).(stop := Unlinking, state := release,
                                 journal := o.journal.(records := o.journal.records + [release]));
    FineStep(id, AtVerify(o), lock, replies, n);
    assert StopStep(AtVerify(o), ViewOf(lock, id), true, true) == recording;
    FineStep(id, recording, lock, replies[1..], n - 1);
    assert StopStep(recording, ViewOf(lock, id), true, true) == recorded;
    FineStep(id, recorded, lock, replies[1..][1..], n - 2);
    assert replies[1..][1..][1..] == replies[3..];
  }

  lemma StoppableSound(o: Owner)
    requires Stoppable(o)
    ensures !o.crashed && !o.journal.failed && o.stop.Idle?
  {
  }

  /** The managed launcher's last two steps, or its last one. */
  lemma Seals(id: nat, o: Owner, lock: Lock, replies: seq<Reply>, n: nat)
    requires AllFine(replies, n) && !o.crashed && o.kind == Managed && !o.journal.failed
    requires o.journal.open ==> |o.journal.records| < MAX_RECORDS
    requires (o.stop.Syncing? && n >= 2) || (o.stop.Sealing? && n >= 1 && o.state.lockReleased && !o.pendingReleaseSync)
    ensures var final := o.state.(phase := Closed, lockReleased := true);
            Proceeds(id, o, lock, replies)
            == Outcome(o.(stop := Ended, state := final, pendingReleaseSync := false,
                          journal := Journal(false, false, o.journal.records + if o.journal.open then [final] else [])),
                       lock)
    decreases |replies|
  {
    hide Proceeds;
    var final := o.state.(phase := Closed, lockReleased := true);
    var sealed := o.(stop := Ended, state := final, pendingReleaseSync := false,
                     journal := Journal(false, false, o.journal.records + if o.journal.open then [final] else []));
    if o.stop.Syncing? {
      var sealing := o.(pendingReleaseSync := false, state := o.state.(lockReleased := true), stop := Sealing);
      FineStep(id, o, lock, replies, n);
      assert StopStep(o, ViewOf(lock, id), true, true) == sealing;
      Seals(id, sealing, lock, replies[1..], n - 1);
    } else {
      FineStep(id, o, lock, replies, n);
      assert StopStep(o, ViewOf(lock, id), true, true) == sealed;
      FineEnough(replies[1..], n - 1);
      EndedStays(id, sealed, lock, replies[1..]);
    }
  }

  lemma FineEnough(replies: seq<Reply>, n: nat)
    requires AllFine(replies, n)
    ensures AllFine(replies, 0)
  {
  }

  /** A stop that holds the lock and whose calls all succeed releases it. */
  lemma CleanRelease(id: nat, o: Owner, lock: Lock, replies: seq<Reply>)
    requires Releasable(o, lock, id) && AllFine(replies, 8)
    ensures Proceeds(id, Begun(o), lock, replies) == Outcome(ReleasedEnd(o), Absent)
  {
    hide Proceeds, Stoppable;
    StoppableSound(o);
    Joins(id, o, lock, replies, 8);
    assert AfterJoin(Begun(o).(stop := Joining, state := o.state.(groupAbsent := true))) == AtVerify(o);
    Releases(id, o, lock, replies[3..], 5);
    var release := Known(o).(phase := if o.kind == Managed then ReleasePending else Closed);
    var recorded := AtVerify(o).(stop := Unlinking, state := release,
                                 journal := o.journal.(records := o.journal.records + [release]));
    if o.kind == Managed {
      var syncing := recorded.(lockOwned := false, pendingReleaseSync := true, stop := Syncing);
      assert Unlinked(recorded) == syncing;
      Seals(id, syncing, Absent, replies[3..][3..], 2);
      assert o.journal.records + [release] + [Final(o)] == o.journal.records + [release, Final(o)];
    } else {
      assert Unlinked(recorded) == ReleasedEnd(o);
      FineEnough(replies[3..][3..], 2);
      EndedStays(id, ReleasedEnd(o), Absent, replies[3..][3..]);
    }
  }

  /** A stop without a lock ends too, and leaves the lock file to whoever has it. */
  lemma CleanEnd(id: nat, o: Owner, lock: Lock, replies: seq<Reply>)
    requires Lockless(o) && AllFine(replies, 5)
    ensures Proceeds(id, Begun(o), lock, replies) == Outcome(QuietEnd(o), lock)
  {
    hide Proceeds, Stoppable;
    StoppableSound(o);
    Joins(id, o, lock, replies, 5);
    var joined := AfterJoin(Begun(o).(stop := Joining, state := o.state.(groupAbsent := true)));
    if o.kind == Managed {
      assert joined == if o.pendingReleaseSync then Begun(o).(stop := Syncing, state := Known(o))
                       else Begun(o).(stop := Sealing, state := Known(o).(lockReleased := true));
      Seals(id, joined, lock, replies[3..], 2);
      assert o.journal.records + [] == o.journal.records;
    } else {
      assert joined == QuietEnd(o);
      FineEnough(replies[3..], 2);
      EndedStays(id, joined, lock, replies[3..]);
    }
  }

  /** What the two ends come to for a call on an owner at rest. */
  lemma Undisturbed(id: nat, o: Owner, lock: Lock, replies: seq<Reply>)
    ensures var outcome := Proceeds(id, Step(o, ViewOf(lock, id), BeginStop), lock, replies);
            && (Releasable(o, lock, id) && AllFine(replies, 8) ==> outcome == Outcome(ReleasedEnd(o), Absent))
            && (Lockless(o) && AllFine(replies, 5) ==> outcome == Outcome(QuietEnd(o), lock))
  {
    hide Proceeds, Stoppable;
    if Stoppable(o) {
      StoppableSound(o);
      assert Step(o, ViewOf(lock, id), BeginStop) == Begun(o);
      if Releasable(o, lock, id) && AllFine(replies, 8) {
        CleanRelease(id, o, lock, replies);
      }
      if Lockless(o) && AllFine(replies, 5) {
        CleanEnd(id, o, lock, replies);
      }
    }
  }

  /** In every run an owner whose preparation failed before a launch can be
      stopped: with its whole lock it releases it, and without a lock it ends
      and leaves the file alone. */
  lemma FailedEarlyEnds(events: seq<Event>, id: nat, replies: seq<Reply>)
    requires id in Run(EMPTY, events).owners && AllFine(replies, 8)
    requires var o := Run(EMPTY, events).owners[id];
             && o.prep.Failed? && !o.state.launchAttempted && !o.crashed && o.stop.Idle?
             && !o.journal.failed && (o.journal.open ==> |o.journal.records| + 2 <= MAX_RECORDS)
    ensures var s := Run(EMPTY, events);
            var o := s.owners[id];
            var outcome := Proceeds(id, Step(o, ViewOf(s.lock, id), BeginStop), s.lock, replies);
            && (o.lockOwned && o.journal.open && s.lock == Present(id, true) && !o.pendingReleaseSync ==>
                  outcome == Outcome(ReleasedEnd(o), Absent))
            && (!o.lockOwned && !o.pendingReleaseSync ==> outcome == Outcome(QuietEnd(o), s.lock))
  {
    hide Run, Removed, Evident, Proceeds, ReleasedEnd, QuietEnd;
    EmptyFine();
    RunKeeps(EMPTY, events);
    var s := Run(EMPTY, events);
    EarlyFailureKnown(s, id);
    FineFewer(replies);
    Undisturbed(id, s.owners[id], s.lock, replies);
  }

  lemma EarlyFailureKnown(s: State, id: nat)
    requires Inv(s) && id in s.owners
    ensures var o := s.owners[id];
            o.prep.Failed? && !o.state.launchAttempted ==>
              o.state.rootExited && o.state.groupAbsent && o.child.NoChild?
  {
    hide LockInv, StopInv, StopFits, LetGo, Evident, RecordsFine;
    assert EndInv(s.owners[id]);
    assert OwnerInv(s.owners[id], ViewOf(s.lock, id), Removed(s, id));
  }

  lemma FineFewer(replies: seq<Reply>)
    requires AllFine(replies, 8)
    ensures AllFine(replies, 5)
  {
  }

  // ----------------------------------------------------- the stop that fails

  /** The owner as a failing call leaves it. */
  predicate FailedFrom(o: Owner, failing: Owner) {
    && failing == o.(stop := Failing, state := failing.state, journal := failing.journal)
    && failing.state.phase == Recovery
    && failing.journal == o.journal.(failed := o.stop.Recording? || o.stop.Sealing?)
  }

  lemma FailingStop(o: Owner, k: Knowledge, j: Journal)
    requires j == o.journal.(failed := o.stop.Recording? || o.stop.Sealing?)
    ensures FailedFrom(o, FailStop(o.(state := k, journal := j)))
  {
  }

  lemma CallFails(o: Owner, v: View, effect: bool)
    requires !o.stop.Idle? && !o.stop.Ended? && !o.stop.Failing?
    requires o.journal.open && !o.journal.failed && |o.journal.records| < MAX_RECORDS
    requires o.stop.Sealing? ==> o.state.lockReleased
    ensures FailedFrom(o, StopStep(o, v, false, effect))
  {
    hide FailedFrom, FailStop, AfterJoin, Unlinked, Probe;
    var j := o.journal.(failed := o.stop.Recording? || o.stop.Sealing?);
    var k := if o.stop.Probing? then Probe(o, effect)
             else if o.stop.Joining? then o.state.(joined := o.state.joined || effect) else o.state;
    FailingStop(o, k, j);
    assert StopStep(o, v, false, effect) == FailStop(o.(state := k, journal := j));
  }

  /** A stop whose call fails rests in recovery, with that on record unless the
      journal itself is what failed; nothing it holds is given up. */
  lemma FailureRecorded(o: Owner, v: View, w: View, effect: bool)
    requires !o.crashed && !o.stop.Idle? && !o.stop.Ended? && !o.stop.Failing?
    requires o.journal.open && !o.journal.failed && |o.journal.records| < MAX_RECORDS
    requires o.stop.Sealing? ==> o.state.lockReleased
    ensures var failing := Step(o, v, Proceed(false, effect));
            var next := Step(failing, w, Proceed(true, true));
            && FailedFrom(o, failing) && next.stop.Idle? && next.state == failing.state
            && next.lockOwned == o.lockOwned && next.pendingReleaseSync == o.pendingReleaseSync
            && (if o.stop.Recording? || o.stop.Sealing? then next.journal == failing.journal
                else next.journal == o.journal.(records := o.journal.records + [next.state]))
  {
    hide StopStep;
    CallFails(o, v, effect);
    Abandons(o, StopStep(o, v, false, effect), w);
  }

  lemma Abandons(o: Owner, failing: Owner, w: View)
    requires FailedFrom(o, failing) && o.journal.open && !o.journal.failed && |o.journal.records| < MAX_RECORDS
    ensures var next := StopStep(failing, w, true, true);
            && next == failing.(stop := Idle, journal := next.journal)
            && (if o.stop.Recording? || o.stop.Sealing? then next.journal == failing.journal
                else next.journal == o.journal.(records := o.journal.records + [next.state]))
  {
  }
}

/** One owner as the launchers keep it: variables updated in place by the
    preparation and by `stopAndJoin`, over a lock file on disk. */
module CustodyOwner {
  import opened Custody
  import opened CustodyRuns
  import opened CustodyEnds
  import opened CustodyClean

  /** The account's lock file. */
  class LockFile {
    var lock: Lock

    constructor ()
      ensures lock == Absent
    {
      lock := Absent;
    }
  }

  lemma ProceedsOne(id: nat, o: Owner, lock: Lock, replies: seq<Reply>, k: nat)
    requires k < |replies|
    ensures var move := Proceed(replies[k].ok, replies[k].effect);
            Proceeds(id, o, lock, replies[k..])
            == Proceeds(id, Step(o, ViewOf(lock, id), move), Touch(lock, id, EffectOf(o, ViewOf(lock, id), move)),
                replies[k + 1..])
  {
    hide Step, EffectOf;
    assert replies[k..][1..] == replies[k + 1..];
  }

  function Acts(id: nat, replies: seq<Reply>): seq<Event> {
    seq(|replies|, i requires 0 <= i < |replies| => Act(id, Proceed(replies[i].ok, replies[i].effect)))
  }

  /** An undisturbed call is one of the runs the safety results speak of. */
  lemma {:induction false} ProceedsIsRun(s: State, id: nat, replies: seq<Reply>)
    requires id in s.owners
    ensures var t := Run(s, Acts(id, replies));
            id in t.owners && Outcome(t.owners[id], t.lock) == Proceeds(id, s.owners[id], s.lock, replies)
    decreases |replies|
  {
    hide Step, EffectOf, Touch;
    if replies != [] {
      var event := Act(id, Proceed(replies[0].ok, replies[0].effect));
      assert Acts(id, replies)[1..] == Acts(id, replies[1..]);
      ProceedsIsRun(Apply(s, event), id, replies[1..]);
    }
  }

  /** One step keeps the owner's invariant and its group on record; only its
      own whole lock is ever removed, and none after that. */
  lemma StepValid(id: nat, o: Owner, lock: Lock, removed: bool, m: Move)
    requires OwnerInv(o, ViewOf(lock, id), removed) && Evident(o) && EndInv(o) && LetGo(o, removed)
    ensures var effect := EffectOf(o, ViewOf(lock, id), m);
            var after := Touch(lock, id, effect);
            && OwnerInv(Step(o, ViewOf(lock, id), m), ViewOf(after, id), removed || effect == Unlink)
            && Evident(Step(o, ViewOf(lock, id), m)) && EndInv(Step(o, ViewOf(lock, id), m))
            && LetGo(Step(o, ViewOf(lock, id), m), removed || effect == Unlink)
            && (effect == Unlink ==> lock == Present(id, true) && Removable(o))
            && (removed ==> after == lock)
  {
    hide OwnerInv, Evident, EndInv, LetGo, Step, EffectOf, Removable;
    var v := ViewOf(lock, id);
    StepKeeps(o, v, removed, m);
    StepEvident(o, v, removed, m);
    EndKeeps(o, v, removed, m);
    LetGoKeeps(o, v, removed, m);
    ViewsAfter(lock, id, EffectOf(o, v, m), id);
    RemovedHasNoLock(o, v);
    if removed {
      RemovedNeverCreates(o, v, m);
    }
  }

  class OwnedCore {
    const id: nat
    const kind: Kind
    var prep: Prep
    var stop: Stop
    var state: Knowledge
    var journalOpen: bool
    var journalFailed: bool
    var records: seq<Knowledge>
    var closing: bool
    var lockOwned: bool
    var pendingReleaseSync: bool
    var streamsClosed: bool
    var child: Child
    var group: Group
    /** Whether this owner has removed the lock. */
    ghost var removed: bool

    constructor (id: nat, kind: Kind, disk: LockFile)
      requires disk.lock.Present? ==> disk.lock.creator != id
      ensures this.id == id && this.kind == kind && Model() == Newcomer(kind) && Valid(disk) && !removed
    {
      this.id, this.kind := id, kind;
      prep, stop, state := Starting, Idle, Knowledge(Preparing, false, false, false, false, false);
      journalOpen, journalFailed, records := false, false, [];
      closing, lockOwned, pendingReleaseSync, streamsClosed := false, false, false, false;
      child, group, removed := NoChild, Group(false, false), false;
      new;
      NewcomerFine(kind, ViewOf(disk.lock, id));
    }

    ghost function Model(): Owner
      reads this
    {
      Owner(kind, false, prep, stop, state, Journal(journalOpen, journalFailed, records),
            closing, lockOwned, pendingReleaseSync, streamsClosed, child, group)
    }

    ghost predicate Valid(disk: LockFile)
      reads this, disk
    {
      && OwnerInv(Model(), ViewOf(disk.lock, id), removed) && Evident(Model())
      && EndInv(Model()) && LetGo(Model(), removed)
    }

    /** Appends the current state to the journal. */
    method PersistState(ok: bool) returns (done: bool)
      modifies this`journalFailed, this`records
      ensures done <==> Persists(old(Model()).journal, ok)
      ensures Model() == old(Model()).(journal := Persist(old(Model()).journal, kind, state, ok))
    {
      if !journalOpen || journalFailed || |records| >= MAX_RECORDS {
        if kind == Account {
          journalFailed := true;
        }
        return false;
      }
      if !ok {
        journalFailed := true;
        return false;
      }
      records := records + [state];
      done := true;
    }

    // ------------------------------------------------------- preparation

    method FailPrep()
      modifies this`prep, this`state
      ensures Model() == FailPreparation(old(Model()))
    {
      if !state.launchAttempted {
        state := state.(rootExited := true, groupAbsent := true);
      }
      prep := Failed;
    }

    /** The exclusive create: owned from the moment the create returns. */
    method CreateLock(disk: LockFile, r: Reply)
      requires Valid(disk) && prep.Journaled?
      modifies this, disk
      ensures Valid(disk) && Model() == PrepareStep(old(Model()), ViewOf(old(disk.lock), id), r.ok, r.effect)
      ensures disk.lock == Touch(old(disk.lock), id,
          PrepareEffect(old(prep), ViewOf(old(disk.lock), id), r.ok || r.effect))
    {
      hide OwnerInv, EndInv, LetGo, Evident;
      StepValid(id, Model(), disk.lock, removed, Prepare(r.ok, r.effect));
      if disk.lock == Absent && (r.ok || r.effect) {
        disk.lock := Present(id, false);
        if r.ok {
          lockOwned, prep := true, Created;
          return;
        }
      }
      FailPrep();
    }

    method WriteLock(disk: LockFile, r: Reply)
      requires Valid(disk) && prep.Created?
      modifies this, disk
      ensures Valid(disk) && Model() == PrepareStep(old(Model()), ViewOf(old(disk.lock), id), r.ok, r.effect)
      ensures disk.lock == Touch(old(disk.lock), id,
          PrepareEffect(old(prep), ViewOf(old(disk.lock), id), r.ok || r.effect))
    {
      hide OwnerInv, EndInv, LetGo, Evident;
      StepValid(id, Model(), disk.lock, removed, Prepare(r.ok, r.effect));
      if (r.ok || r.effect) && disk.lock.Present? && disk.lock.creator == id {
        disk.lock := Present(id, true);
      }
      if r.ok {
        prep := Written;
      } else {
        FailPrep();
      }
    }

    /** The last checks before the launch is marked; only the managed launcher
        reads the lock again. */
    method MarkLaunch(disk: LockFile, r: Reply)
      requires Valid(disk) && prep.Recorded?
      modifies this
      ensures Valid(disk) && Model() == PrepareStep(old(Model()), ViewOf(disk.lock, id), r.ok, r.effect)
    {
      hide OwnerInv, EndInv, LetGo, Evident;
      StepValid(id, Model(), disk.lock, removed, Prepare(r.ok, r.effect));
      if !r.ok || closing || (kind == Managed && disk.lock != Present(id, true)) {
        FailPrep();
      } else {
        state := state.(phase := LaunchPending, launchAttempted := true);
        prep := Pending;
      }
    }

    /** Writes a record and goes on, or fails the preparation. */
    method RecordOr(ok: bool, next: Prep)
      modifies this`journalFailed, this`records, this`prep, this`state
      ensures Model() == RecordThen(old(Model()), ok, next)
    {
      hide Persist, Persists;
      var done := PersistState(ok);
      if done {
        prep := next;
      } else {
        FailPrep();
      }
    }

    /** A record on the way: the first, the pending launch, the process id. */
    method RecordNext(ghost disk: LockFile, r: Reply)
      requires Valid(disk) && (prep.Written? || prep.Pending? || prep.Spawned?)
      modifies this
      ensures Valid(disk) && Model() == PrepareStep(old(Model()), ViewOf(disk.lock, id), r.ok, r.effect)
    {
      hide OwnerInv, EndInv, LetGo, Evident, RecordThen, EffectOf;
      StepValid(id, Model(), disk.lock, removed, Prepare(r.ok, r.effect));
      assert EffectOf(Model(), ViewOf(disk.lock, id), Prepare(r.ok, r.effect)) == Untouched by {
        NoLockYet(Model(), ViewOf(disk.lock, id), r);
      }
      RecordOr(r.ok, if prep.Written? then Recorded else if prep.Pending? then Durable else Noted);
    }

    static lemma NoLockYet(o: Owner, v: View, r: Reply)
      requires !o.prep.Journaled? && !o.prep.Created?
      ensures EffectOf(o, v, Prepare(r.ok, r.effect)) == Untouched
    {
    }

    method SpawnChild(ghost disk: LockFile, result: SpawnResult)
      requires Valid(disk) && prep.Durable?
      modifies this
      ensures Valid(disk) && Model() == SpawnStep(old(Model()), result)
    {
      hide OwnerInv, EndInv, LetGo, Evident;
      StepValid(id, Model(), disk.lock, removed, Spawn(result));
      match result {
        case Threw(started) =>
          group := Group(started, false);
          prep := Failed;
        case ReturnedWithoutPid =>
          child := Child(false, false);
          prep := Spawned;
        case ReturnedWithPid =>
          child, group := Child(true, false), Group(true, false);
          prep := Spawned;
      }
    }

    /** The last checks, then the record of the running process. */
    method RecordRunning(ghost disk: LockFile, r: Reply)
      requires Valid(disk) && prep.Grouped?
      modifies this
      ensures Valid(disk) && Model() == PrepareStep(old(Model()), ViewOf(disk.lock, id), r.ok, r.effect)
    {
      hide OwnerInv, EndInv, LetGo, Evident, RecordThen, FailPreparation, EffectOf;
      StepValid(id, Model(), disk.lock, removed, Prepare(r.ok, r.effect));
      assert EffectOf(Model(), ViewOf(disk.lock, id), Prepare(r.ok, r.effect)) == Untouched by {
        NoLockYet(Model(), ViewOf(disk.lock, id), r);
      }
      if closing || state.rootExited || (!r.ok && !r.effect) {
        FailPrep();
      } else {
        state := state.(phase := Running);
        RecordOr(r.ok, Done);
      }
    }

    // --------------------------------------------------------------- stop

    method GiveUp()
      modifies this`stop, this`state
      ensures Model() == FailStop(old(Model()))
    {
      stop := Failing;
      state := state.(phase := Recovery);
    }

    /** What the probe of the group tells. */
    method NoteAbsence(absent: bool)
      modifies this`state
      ensures Model() == old(Model()).(state := Probe(old(Model()), absent))
    {
      hide Alive;
      if state.rootExited && child == Child(true, true) {
        state := state.(groupAbsent := absent && !Alive(group));
      }
    }

    method ProbeGroup(r: Reply)
      requires stop.Probing?
      modifies this`stop, this`state
      ensures Model() == ProbeStep(old(Model()), r.ok, r.effect)
      ensures removed == old(removed)
    {
      hide Proven, Probe, FailStop;
      NoteAbsence(r.effect);
      if r.ok && Proven(prep, child, streamsClosed, state) {
        stop := Joining;
      } else {
        GiveUp();
      }
    }

    /** The account launcher is done once nothing is left to release. */
    method CloseAccount(lockReleased: bool)
      modifies this`stop, this`state, this`lockOwned, this`journalOpen
      ensures Model() == AccountClosed(old(Model()), lockReleased)
      ensures removed == old(removed)
    {
      state := state.(phase := Closed, lockReleased := lockReleased);
      lockOwned := false;
      stop := Idle;
      if lockReleased && !journalFailed {
        journalOpen := false;
        if state.groupAbsent {
          stop := Ended;
        }
      }
    }

    method JoinStreams()
      requires stop.Joining?
      modifies this`stop, this`state, this`lockOwned, this`journalOpen
      ensures Model() == AfterJoin(old(Model()))
      ensures removed == old(removed)
    {
      state := state.(joined := true);
      if lockOwned {
        stop := Verifying;
      } else if kind == Account {
        CloseAccount(!state.launchAttempted);
      } else if pendingReleaseSync {
        stop := Syncing;
      } else {
        state := state.(lockReleased := state.lockReleased || !state.launchAttempted);
        stop := Sealing;
      }
    }

    static lemma RecordingForgotten(o: Owner, written: Owner)
      requires written == o.(state := written.state, journal := written.journal)
      requires written.state == o.state.(phase := written.state.phase)
      ensures FailStop(written) == FailStop(o.(journal := written.journal))
    {
    }

    /** A record of the state in another phase. */
    method RecordAs(phase: Phase, ok: bool) returns (done: bool)
      modifies this`state, this`journalFailed, this`records
      ensures done <==> Persists(old(Model()).journal, ok)
      ensures var k := old(state).(phase := phase);
              Model() == old(Model()).(state := k, journal := Persist(old(Model()).journal, kind, k, ok))
    {
      hide Persist, Persists;
      state := state.(phase := phase);
      done := PersistState(ok);
    }

    method RecordTerminal(r: Reply)
      requires stop.Recording?
      modifies this`stop, this`state, this`journalFailed, this`records
      ensures Model() == RecordRelease(old(Model()), r.ok)
      ensures removed == old(removed)
    {
      hide FailStop, Persist, Persists;
      var done := RecordAs(if kind == Managed then ReleasePending else Closed, r.ok);
      if done {
        stop := Unlinking;
      } else {
        RecordingForgotten(old(Model()), Model());
        GiveUp();
      }
    }

    method UnlinkLock(disk: LockFile, r: Reply)
      requires stop.Unlinking?
      modifies this`stop, this`state, this`lockOwned, this`journalOpen, this`pendingReleaseSync, disk
      ensures Model() == if r.ok then Unlinked(old(Model())) else FailStop(old(Model()))
      ensures disk.lock == if r.ok || r.effect then Absent else old(disk.lock)
      ensures removed == old(removed)
    {
      if r.ok || r.effect {
        disk.lock := Absent;
      }
      if !r.ok {
        GiveUp();
      } else if kind == Managed {
        lockOwned, pendingReleaseSync, stop := false, true, Syncing;
      } else {
        CloseAccount(true);
      }
    }

    /** The last record, after which the journal is closed. */
    method SealOpen(ok: bool)
      requires journalOpen && !journalFailed && state.lockReleased
      modifies this`stop, this`state, this`journalOpen, this`journalFailed, this`records
      ensures Model() == Seal(old(Model()), ok)
    {
      hide FailStop, Persist, Persists;
      var done := RecordAs(Closed, ok);
      if done {
        journalOpen, stop := false, Ended;
      } else {
        RecordingForgotten(old(Model()), Model());
        GiveUp();
      }
    }

    method SealJournal(r: Reply)
      requires stop.Sealing?
      modifies this`stop, this`state, this`journalOpen, this`journalFailed, this`records
      ensures Model() == Seal(old(Model()), r.ok)
      ensures removed == old(removed)
    {
      hide FailStop, Persist, Persists;
      if !state.lockReleased || journalFailed {
        GiveUp();
      } else if journalOpen {
        SealOpen(r.ok);
      } else {
        state := state.(phase := Closed);
        stop := Ended;
      }
    }

    method RecordFailure(r: Reply)
      requires stop.Failing?
      modifies this`stop, this`journalFailed, this`records
      ensures Model() == Abandon(old(Model()), r.ok)
      ensures removed == old(removed)
    {
      if journalOpen && !journalFailed {
        var done := PersistState(r.ok);
      }
      stop := Idle;
    }

    /** The stages that only wait, look or sync. */
    method PassStage(disk: LockFile, r: Reply)
      requires stop.Waiting? || stop.Verifying? || stop.Syncing?
      modifies this`stop, this`state, this`pendingReleaseSync
      ensures Model() == StopStep(old(Model()), ViewOf(disk.lock, id), r.ok, r.effect)
    {
      hide ProbeStep, AfterJoin, RecordRelease, Unlinked, Seal, Abandon, FailStop;
      if !r.ok {
        GiveUp();
      } else if stop.Waiting? && (prep.Done? || prep.Failed?) {
        stop := Probing;
      } else if stop.Verifying? && !journalFailed && disk.lock == Present(id, true) {
        stop := Recording;
      } else if stop.Syncing? {
        pendingReleaseSync, stop := false, Sealing;
        state := state.(lockReleased := true);
      } else {
        GiveUp();
      }
    }

    method JoinStage(r: Reply)
      requires stop.Joining?
      modifies this`stop, this`state, this`lockOwned, this`journalOpen
      ensures Model() == if r.ok then AfterJoin(old(Model()))
                         else FailStop(old(Model()).(state := old(state).(joined := old(state).joined || r.effect)))
    {
      hide AfterJoin, FailStop;
      if r.ok {
        JoinStreams();
      } else {
        state := state.(joined := state.joined || r.effect);
        GiveUp();
      }
    }

    method AdvanceStage(disk: LockFile, r: Reply)
      modifies this, disk
      ensures removed == old(removed)
      ensures Model() == StopStep(old(Model()), ViewOf(old(disk.lock), id), r.ok, r.effect)
      ensures disk.lock == if old(stop).Unlinking? && (r.ok || r.effect) then Absent else old(disk.lock)
    {
      hide ProbeStep, AfterJoin, RecordRelease, Unlinked, Seal, Abandon, FailStop, Settled;
      match stop
      case Waiting => PassStage(disk, r);
      case Probing => ProbeGroup(r);
      case Joining => JoinStage(r);
      case Verifying => PassStage(disk, r);
      case Recording => RecordTerminal(r);
      case Unlinking => UnlinkLock(disk, r);
      case Syncing => PassStage(disk, r);
      case Sealing => SealJournal(r);
      case Failing => RecordFailure(r);
      case _ =>
    }

    /** The stage the stop has reached, up to its next wait: only the owner's own
        whole lock can go, and only once. */
    method Advance(disk: LockFile, r: Reply)
      requires Valid(disk)
      modifies this, disk
      ensures Valid(disk) && (old(removed) ==> removed)
      ensures disk.lock != old(disk.lock) ==> old(disk.lock) == Present(id, true) && !old(removed) && removed
      ensures Model() == StopStep(old(Model()), ViewOf(old(disk.lock), id), r.ok, r.effect)
      ensures disk.lock == if old(stop).Unlinking? && (r.ok || r.effect) then Absent else old(disk.lock)
    {
      hide OwnerInv, EndInv, LetGo, Evident, Removable, StopStep;
      StepValid(id, Model(), disk.lock, removed, Proceed(r.ok, r.effect));
      removed := removed || (stop.Unlinking? && (r.ok || r.effect));
      AdvanceStage(disk, r);
    }

    /** A call begins, or joins the one under way. */
    method Begin(ghost disk: LockFile)
      requires Valid(disk) && !stop.Ended?
      modifies this`closing, this`stop
      ensures Valid(disk) && Model() == Step(old(Model()), ViewOf(disk.lock, id), BeginStop)
    {
      hide OwnerInv, EndInv, LetGo, Evident;
      StepValid(id, Model(), disk.lock, removed, BeginStop);
      if stop.Idle? {
        closing, stop := true, Waiting;
      }
    }

    /** A whole undisturbed call: the steps of the model in order, whatever the
        system answers. A closed owner leaves the disk alone. */
    method StopAndJoin(disk: LockFile, replies: seq<Reply>)
      requires Valid(disk)
      modifies this, disk
      ensures Valid(disk) && (old(removed) ==> removed && disk.lock == old(disk.lock))
      ensures disk.lock != old(disk.lock) ==> old(disk.lock) == Present(id, true) && disk.lock == Absent && removed
      ensures old(stop).Ended? ==> Model() == old(Model()) && disk.lock == old(disk.lock)
      ensures stop.Ended? ==> EndedWell(Model())
      ensures old(Releasable(Model(), disk.lock, id)) && AllFine(replies, 8) ==>
                && stop.Ended? && state.phase == Closed && state.lockReleased && disk.lock == Absent
                && |records| == |old(records)| + (if kind == Managed then 2 else 1)
                && Model() == ReleasedEnd(old(Model()))
      ensures old(Lockless(Model())) && AllFine(replies, 5) ==>
                stop.Ended? && state.phase == Closed && disk.lock == old(disk.lock) && Model() == QuietEnd(old(Model()))
      ensures !old(stop).Ended? ==>
                Outcome(Model(), disk.lock) == Proceeds(id, Step(old(Model()), ViewOf(old(disk.lock), id), BeginStop),
                    old(disk.lock), replies)
    {
      hide Proceeds, StopStep, OwnerInv, EndInv, LetGo, Evident, Stoppable;
      hide EndedWell, AllFine;
      if stop.Ended? {
        EndsWell(Model());
        return;
      }
      Begin(disk);
      ghost var begun := Step(old(Model()), ViewOf(old(disk.lock), id), BeginStop);
      var k := 0;
      assert replies[0..] == replies;
      while k < |replies|
        invariant 0 <= k <= |replies| && !Model().crashed && Valid(disk)
        invariant old(removed) ==> removed && disk.lock == old(disk.lock)
        invariant disk.lock != old(disk.lock) ==> old(disk.lock) == Present(id, true) && disk.lock == Absent && removed
        invariant Proceeds(id, begun, old(disk.lock), replies) == Proceeds(id, Model(), disk.lock, replies[k..])
      {
        ProceedsOne(id, Model(), disk.lock, replies, k);
        Advance(disk, replies[k]);
        k := k + 1;
      }
      ProceedsNone(id, Model(), disk.lock, replies);
      EndsWell(Model());
      Undisturbed(id, old(Model()), old(disk.lock), replies);
    }

    static lemma EndsWell(o: Owner)
      requires EndInv(o)
      ensures o.stop.Ended? ==> EndedWell(o) && !Stoppable(o)
    {
      hide RecordsFine, PhaseFits;
    }

    static lemma ProceedsNone(id: nat, o: Owner, lock: Lock, replies: seq<Reply>)
      ensures Proceeds(id, o, lock, replies[|replies|..]) == Outcome(o, lock)
    {
    }
  }
}

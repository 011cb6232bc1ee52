/** Any number of owners of the two launchers on one account, sharing one
    exclusive lock file, each with a journal and at most one native process group. */
module Custody {
  datatype Kind = Account | Managed

  datatype Phase = Preparing | LaunchPending | Running | ReleasePending | Closed | Recovery

  /** What a launcher knows of its process; a journal record is a copy of it. */
  datatype Knowledge = Knowledge(
    phase: Phase, launchAttempted: bool, rootExited: bool, groupAbsent: bool, joined: bool, lockReleased: bool)

  datatype Journal = Journal(open: bool, failed: bool, records: seq<Knowledge>)

  /** The members of a native process group: its root and whatever else joined it. */
  datatype Group = Group(root: bool, others: bool)

  datatype Child = NoChild | Child(hasPid: bool, grouped: bool)

  /** Where the preparation stands; the next step follows the name. */
  datatype Prep =
    | Starting     // checks, run directory, journal file
    | Journaled    // exclusive create of the lock
    | Created      // write and sync the lock
    | Written      // first journal record
    | Recorded     // last checks, then mark the launch pending
    | Pending      // journal record of the pending launch
    | Durable      // spawn
    | Spawned      // journal record of the process id
    | Noted        // look up the process group
    | Grouped      // last checks, then journal record of the running process
    | Done
    | Failed

  /** Where the current call of `stopAndJoin` stands. */
  datatype Stop =
    | Idle | Waiting | Probing | Joining | Verifying | Recording | Unlinking | Syncing | Sealing | Failing | Ended

  datatype Owner = Owner(
    kind: Kind, crashed: bool, prep: Prep, stop: Stop, state: Knowledge, journal: Journal,
    closing: bool, lockOwned: bool, pendingReleaseSync: bool, streamsClosed: bool,
    child: Child, group: Group)

  /** The lock file: `whole` once all of its creator's text is in it. */
  datatype Lock = Absent | Present(creator: nat, whole: bool)

  /** The lock file as one owner sees it. */
  datatype View = Free | Mine(whole: bool) | Foreign

  datatype Effect = Untouched | Create | Write | Unlink

  datatype SpawnResult = Threw(started: bool) | ReturnedWithoutPid | ReturnedWithPid

  /** What can happen to one owner next. `ok` is the outcome of the step's
      system call and `effect` whether a call that failed took effect. */
  datatype Move =
    | Crash
    | RootExits | OthersExit | OthersAppear
    | ExitEvent | CloseEvent(spawnError: bool)
    | Prepare(ok: bool, effect: bool)
    | Spawn(result: SpawnResult)
    | BeginStop
    | Proceed(ok: bool, effect: bool)

  const MAX_RECORDS := 32

  function Newcomer(kind: Kind): Owner {
    Owner(kind, false, Starting, Idle, Knowledge(Preparing, false, false, false, false, false),
        Journal(false, false, []),
          false, false, false, false, NoChild, Group(false, false))
  }

  predicate Settled(p: Prep) {
    p.Done? || p.Failed?
  }

  predicate Alive(g: Group) {
    g.root || g.others
  }

  /** What must be on record before a lock may go. */
  predicate Terminal(k: Knowledge) {
    !k.launchAttempted || (k.rootExited && k.groupAbsent && k.joined)
  }

  /** The last record says what the owner knows. */
  predicate OnRecord(records: seq<Knowledge>, k: Knowledge) {
    records != [] && records[|records| - 1] == k
  }

  /** The last record tells of a launch and not of its end. */
  predicate TellsOfLaunch(records: seq<Knowledge>) {
    && records != [] && records[|records| - 1].launchAttempted && !records[|records| - 1].groupAbsent
  }

  /** What must be so when a lock goes: the journal ends with what the owner
      knows, which is enough, and is true of its child and of the group. */
  predicate Removable(o: Owner) {
    && OnRecord(o.journal.records, o.state) && Terminal(o.state)
    && (o.state.launchAttempted <==> o.child.Child?) && !Alive(o.group)
  }

  // ------------------------------------------------------------- one step

  /** Whether a record reaches the journal; `ok` is the outcome of the write. */
  predicate Persists(j: Journal, ok: bool) {
    j.open && !j.failed && |j.records| < MAX_RECORDS && ok
  }

  /** A failed write spoils the journal. A full or closed one is spoiled by
      the attempt in the account launcher and not in the managed one. */
  function Persist(j: Journal, kind: Kind, k: Knowledge, ok: bool): Journal {
    if Persists(j, ok) then j.(records := j.records + [k])
    else j.(failed := j.failed || kind == Account || (j.open && |j.records| < MAX_RECORDS))
  }

  function FailPreparation(o: Owner): Owner {
    if o.state.launchAttempted then o.(prep := Failed)
    else o.(prep := Failed, state := o.state.(rootExited := true, groupAbsent := true))
  }

  /** Writes a record and goes on, or fails the preparation. */
  function RecordThen(o: Owner, ok: bool, next: Prep): Owner {
    var j := Persist(o.journal, o.kind, o.state, ok);
    if Persists(o.journal, ok) then o.(journal := j, prep := next) else FailPreparation(o.(journal := j))
  }

  function PrepareStep(o: Owner, v: View, ok: bool, effect: bool): Owner {
    match o.prep
    case Starting =>
      if ok then o.(journal := o.journal.(open := true), prep := Journaled)
      else FailPreparation(o.(journal := o.journal.(open := effect)))
    case Journaled => if v == Free && ok then o.(lockOwned := true, prep := Created) else FailPreparation(o)
    case Created => if ok then o.(prep := Written) else FailPreparation(o)
    case Written => RecordThen(o, ok, Recorded)
    case Recorded =>
      if ok && !o.closing && (o.kind == Managed ==> v == Mine(true))
      then o.(state := o.state.(phase := LaunchPending, launchAttempted := true), prep := Pending)
      else FailPreparation(o)
    case Pending => RecordThen(o, ok, Durable)
    case Durable => FailPreparation(o)
    case Spawned => RecordThen(o, ok, Noted)
    case Noted => if ok && o.child == Child(true, false) then o.(child := Child(true, true), prep := Grouped)
        else FailPreparation(o)
    case Grouped =>
      if o.closing || o.state.rootExited || (!ok && !effect) then FailPreparation(o)
      else RecordThen(o.(state := o.state.(phase := Running)), ok, Done)
    case _ => o
  }

  function PrepareEffect(prep: Prep, v: View, happens: bool): Effect {
    if prep.Journaled? && v == Free && happens then Create
    else if prep.Created? && happens then Write
    else Untouched
  }

  function SpawnStep(o: Owner, result: SpawnResult): Owner {
    match result
    case Threw(started) => o.(group := Group(started, false), prep := Failed)
    case ReturnedWithoutPid => o.(child := Child(false, false), prep := Spawned)
    case ReturnedWithPid => o.(child := Child(true, false), group := Group(true, false), prep := Spawned)
  }

  /** The group probe: it may report absence only of an empty group, and is
      made only for an exited root whose group was proven to be its own. */
  function Probe(o: Owner, absent: bool): Knowledge {
    if o.state.rootExited && o.child == Child(true, true) then o.state.(groupAbsent := absent && !Alive(o.group))
        else o.state
  }

  predicate Proven(prep: Prep, child: Child, streamsClosed: bool, k: Knowledge) {
    if child.Child? then streamsClosed && k.rootExited && k.groupAbsent
    else Settled(prep) && !k.launchAttempted && k.rootExited
  }

  function FailStop(o: Owner): Owner {
    o.(stop := Failing, state := o.state.(phase := Recovery))
  }

  /** The account launcher closes its journal and answers every later call
      with the same proof, or lets the next call try again. */
  function AccountClosed(o: Owner, lockReleased: bool): Owner {
    var state := o.state.(phase := Closed, lockReleased := lockReleased);
    if lockReleased && !o.journal.failed
    then o.(state := state, lockOwned := false, journal := o.journal.(open := false),
            stop := if state.groupAbsent then Ended else Idle)
    else o.(state := state, lockOwned := false, stop := Idle)
  }

  function AfterJoin(o: Owner): Owner {
    var state := o.state.(joined := true);
    if o.lockOwned then o.(state := state, stop := Verifying)
    else if o.kind == Account then AccountClosed(o.(state := state), !state.launchAttempted)
    else if o.pendingReleaseSync then o.(state := state, stop := Syncing)
    else o.(state := state.(lockReleased := state.lockReleased || !state.launchAttempted), stop := Sealing)
  }

  /** The record that must precede the unlink. */
  function RecordRelease(o: Owner, ok: bool): Owner {
    var state := o.state.(phase := if o.kind == Managed then ReleasePending else Closed);
    var j := Persist(o.journal, o.kind, state, ok);
    if Persists(o.journal, ok) then o.(state := state, journal := j, stop := Unlinking) else FailStop(o.(journal := j))
  }

  /** The managed launcher's last record, after the release is durable. */
  function Seal(o: Owner, ok: bool): Owner {
    var state := o.state.(phase := Closed);
    var released := state.lockReleased && !o.journal.failed;
    var j := if released && o.journal.open then Persist(o.journal, o.kind, state, ok) else o.journal;
    if released && (o.journal.open ==> Persists(o.journal, ok))
    then o.(state := state, journal := j.(open := false), stop := Ended)
    else FailStop(o.(journal := j))
  }

  function ProbeStep(o: Owner, ok: bool, absent: bool): Owner {
    var k := Probe(o, absent);
    if ok && Proven(o.prep, o.child, o.streamsClosed, k) then o.(state := k, stop := Joining)
        else FailStop(o.(state := k))
  }

  /** The lock is gone; the managed launcher still owes the directory a sync. */
  function Unlinked(o: Owner): Owner {
    if o.kind == Managed then o.(lockOwned := false, pendingReleaseSync := true, stop := Syncing)
        else AccountClosed(o, true)
  }

  function Abandon(o: Owner, ok: bool): Owner {
    var attempted := o.journal.open && !o.journal.failed;
    o.(journal := if attempted then Persist(o.journal, o.kind, o.state, ok) else o.journal, stop := Idle)
  }

  function StopStep(o: Owner, v: View, ok: bool, effect: bool): Owner {
    match o.stop
    case Waiting => if ok && Settled(o.prep) then o.(stop := Probing) else FailStop(o)
    case Probing => ProbeStep(o, ok, effect)
    case Joining => if ok then AfterJoin(o) else FailStop(o.(state := o.state.(joined := o.state.joined || effect)))
    case Verifying => if ok && !o.journal.failed && v == Mine(true) then o.(stop := Recording) else FailStop(o)
    case Recording => RecordRelease(o, ok)
    case Unlinking => if ok then Unlinked(o) else FailStop(o)
    case Syncing => if ok then o.(pendingReleaseSync := false, state := o.state.(lockReleased := true), stop := Sealing)
        else FailStop(o)
    case Sealing => Seal(o, ok)
    case Failing => Abandon(o, ok)
    case _ => o
  }

  predicate OnGroup(m: Move) {
    m.RootExits? || m.OthersExit? || m.OthersAppear?
  }

  /** The group lives on its own: members go at any time, and only a group
      that still has a member can gain one. */
  function GroupStep(o: Owner, m: Move): Owner {
    if m.RootExits? then o.(group := o.group.(root := false))
    else if m.OthersExit? then o.(group := o.group.(others := false))
    else if m.OthersAppear? && Alive(o.group) then o.(group := o.group.(others := true))
    else o
  }

  /** The close event follows the end of the root; for a spawn that failed
      without a process id it is itself the proof that nothing runs. */
  function CloseStep(o: Owner, spawnError: bool): Owner {
    if o.child.NoChild? || o.group.root then o
    else if !o.child.hasPid && spawnError
        then o.(streamsClosed := true, state := o.state.(rootExited := true, groupAbsent := true))
    else o.(streamsClosed := true)
  }

  /** One step of one owner, or of the environment on its process group. */
  function Step(o: Owner, v: View, m: Move): Owner {
    if OnGroup(m) then GroupStep(o, m)
    else if o.crashed then o
    else if m.Prepare? then PrepareStep(o, v, m.ok, m.effect)
    else if m.Proceed? then StopStep(o, v, m.ok, m.effect)
    else EventStep(o, m)
  }

  function EventStep(o: Owner, m: Move): Owner {
    if m.Crash? then o.(crashed := true)
    else if m.ExitEvent? && o.child.Child? && o.child.hasPid && !o.group.root
        then o.(state := o.state.(rootExited := true))
    else if m.CloseEvent? then CloseStep(o, m.spawnError)
    else if m.Spawn? && o.prep.Durable? then SpawnStep(o, m.result)
    else if m.BeginStop? && o.stop.Idle? then o.(closing := true, stop := Waiting)
    else o
  }

  /** What the step does to the lock file; a failing call may still take effect. */
  function EffectOf(o: Owner, v: View, m: Move): Effect {
    if o.crashed then Untouched
    else if m.Prepare? then PrepareEffect(o.prep, v, m.ok || m.effect)
    else if m.Proceed? && o.stop.Unlinking? && (m.ok || m.effect) then Unlink
    else Untouched
  }

  // ---------------------------------------------------------- the invariant

  /** The launch has not been marked yet. */
  predicate Before(p: Prep) {
    p.Starting? || p.Journaled? || p.Created? || p.Written? || p.Recorded?
  }

  /** The stop has found the preparation over. */
  predicate Past(p: Stop) {
    !(p.Idle? || p.Waiting? || p.Failing? || p.Ended?)
  }

  /** The stop is going through the release of the lock. */
  predicate Releasing(p: Stop) {
    p.Verifying? || p.Recording? || p.Unlinking?
  }

  /** What one owner, its view of the lock and whether it has removed a lock
      have to do with each other. */
  predicate OwnerInv(o: Owner, v: View, removed: bool) {
    && LaunchInv(o.prep, o.state.launchAttempted, o.state.groupAbsent, o.child, o.group)
    && LockInv(o.prep, o.state.launchAttempted, o.lockOwned, o.group, v, removed)
    && StopInv(o.stop, o.prep, Proven(o.prep, o.child, o.streamsClosed, o.state), o.state.joined,
        OnRecord(o.journal.records, o.state), v)
  }

  /** Nothing runs before the launch is marked, nor once the group is known absent. */
  predicate LaunchInv(prep: Prep, launched: bool, absent: bool, child: Child, group: Group) {
    && (launched || prep.Failed? || Before(prep))
    && (launched ==> !Before(prep))
    && (!launched || prep.Pending? || prep.Durable? || (child.Child? && !child.hasPid) ==> !Alive(group))
    && (!launched || prep.Pending? || prep.Durable? ==> child.NoChild?)
    && (absent ==> !Alive(group) && (child.Child? || prep.Failed?))
  }

  /** From the first record on, and through the whole launch, the lock is its owner's. */
  predicate LockInv(prep: Prep, launched: bool, lockOwned: bool, group: Group, v: View, removed: bool) {
    && (prep.Starting? || prep.Journaled? ==> !v.Mine? && !lockOwned)
    && (prep.Created? ==> v == Mine(false))
    && (prep.Written? || prep.Recorded? || (launched && !removed) ==> v == Mine(true))
    && (removed ==> !v.Mine? && Settled(prep) && !Alive(group))
  }

  /** What each stage of the stop has established. */
  predicate StopInv(stop: Stop, prep: Prep, proven: bool, joined: bool, onRecord: bool, v: View) {
    && (Past(stop) ==> Settled(prep))
    && (stop.Joining? || Releasing(stop) ==> proven)
    && (Releasing(stop) ==> joined)
    && (stop.Recording? || stop.Unlinking? ==> v == Mine(true))
    && (stop.Unlinking? ==> onRecord)
  }

  /** What one owner's step may do to the lock, seen by that owner. */
  predicate Lawful(o: Owner, v: View, effect: Effect) {
    match effect
    case Untouched => true
    case Create => v == Free
    case Write => v == Mine(false)
    case Unlink => v == Mine(true) && Removable(o)
  }

  function NextView(v: View, effect: Effect): View {
    match effect
    case Untouched => v
    case Create => Mine(false)
    case Write => if v.Mine? then Mine(true) else v
    case Unlink => Free
  }

  // Each part of a step keeps the invariant of its owner.

  lemma GroupKeeps(o: Owner, v: View, removed: bool, m: Move)
    requires OwnerInv(o, v, removed) && OnGroup(m)
    ensures OwnerInv(GroupStep(o, m), v, removed)
  {
    hide StopInv, Before;
  }

  lemma JournalKeeps(o: Owner, v: View, removed: bool, j: Journal)
    requires OwnerInv(o, v, removed) && !o.stop.Unlinking?
    ensures OwnerInv(o.(journal := j), v, removed)
  {
    hide LaunchInv, LockInv, Past, Releasing;
  }

  /** Leaving a stop for good or for the next call needs no proof. */
  lemma RestKeeps(o: Owner, v: View, removed: bool, next: Owner)
    requires OwnerInv(o, v, removed)
    requires next.prep == o.prep && next.child == o.child && next.group == o.group && next.lockOwned == o.lockOwned
    requires next.state.launchAttempted == o.state.launchAttempted && next.state.groupAbsent == o.state.groupAbsent
    requires Past(next.stop) ==> Past(o.stop) && (next.stop.Syncing? || next.stop.Sealing?)
    ensures OwnerInv(next, v, removed)
  {
    hide LaunchInv, LockInv, Proven, OnRecord;
  }

  lemma NotPast(o: Owner, v: View, removed: bool)
    requires OwnerInv(o, v, removed) && !Settled(o.prep)
    ensures !Past(o.stop) && !removed
  {
    hide LaunchInv, Past;
  }

  lemma QuietStop(o: Owner, next: Owner, v: View)
    requires !Past(o.stop) && next.stop == o.stop
    ensures StopInv(next.stop, next.prep, Proven(next.prep, next.child, next.streamsClosed, next.state),
        next.state.joined,
                    OnRecord(next.journal.records, next.state), v)
  {
    hide Proven, OnRecord, Settled;
  }

  lemma FailedLaunch(o: Owner)
    requires LaunchInv(o.prep, o.state.launchAttempted, o.state.groupAbsent, o.child, o.group) && !Settled(o.prep)
    ensures var next := FailPreparation(o);
            LaunchInv(next.prep, next.state.launchAttempted, next.state.groupAbsent, next.child, next.group)
  {
  }

  lemma FailedLock(o: Owner, v: View)
    requires LockInv(o.prep, o.state.launchAttempted, o.lockOwned, o.group, v, false)
    ensures var next := FailPreparation(o);
            LockInv(next.prep, next.state.launchAttempted, next.lockOwned, next.group, v, false)
  {
  }

  lemma FailPreparationKeeps(o: Owner, v: View, removed: bool)
    requires OwnerInv(o, v, removed) && !Settled(o.prep)
    ensures OwnerInv(FailPreparation(o), v, removed)
  {
    hide OnRecord, Proven, StopInv, LaunchInv, LockInv;
    NotPast(o, v, removed);
    QuietStop(o, FailPreparation(o), v);
    var next := FailPreparation(o);
    assert LaunchInv(next.prep, next.state.launchAttempted, next.state.groupAbsent, next.child, next.group) by {
      FailedLaunch(o);
    }
    assert LockInv(next.prep, next.state.launchAttempted, next.lockOwned, next.group, v, removed) by {
      FailedLock(o, v);
    }
  }

  lemma RecordThenKeeps(o: Owner, v: View, removed: bool, ok: bool, next: Prep)
    requires OwnerInv(o, v, removed) && !Settled(o.prep)
    requires OwnerInv(o.(prep := next), v, removed)
    ensures OwnerInv(RecordThen(o, ok, next), v, removed)
  {
    hide Persist, LaunchInv, LockInv, FailPreparation;
    var j := Persist(o.journal, o.kind, o.state, ok);
    JournalKeeps(o, v, removed, j);
    JournalKeeps(o.(prep := next), v, removed, j);
    FailPreparationKeeps(o.(journal := j), v, removed);
  }

  lemma RunningKeeps(o: Owner, v: View, removed: bool)
    requires OwnerInv(o, v, removed) && o.prep.Grouped?
    ensures OwnerInv(o.(state := o.state.(phase := Running)), v, removed)
    ensures OwnerInv(o.(state := o.state.(phase := Running), prep := Done), v, removed)
  {
    hide OnRecord;
  }

  lemma RecordsKeep(o: Owner, v: View, removed: bool, ok: bool, effect: bool)
    requires OwnerInv(o, v, removed) && (o.prep.Written? || o.prep.Pending? || o.prep.Spawned? || o.prep.Grouped?)
    ensures OwnerInv(PrepareStep(o, v, ok, effect), v, removed)
  {
    hide RecordThen, FailPreparation, OnRecord;
    FailPreparationKeeps(o, v, removed);
    match o.prep
    case Written => RecordThenKeeps(o, v, removed, ok, Recorded);
    case Pending => RecordThenKeeps(o, v, removed, ok, Durable);
    case Spawned => RecordThenKeeps(o, v, removed, ok, Noted);
    case Grouped =>
      RunningKeeps(o, v, removed);
      RecordThenKeeps(o.(state := o.state.(phase := Running)), v, removed, ok, Done);
  }

  lemma LocksKeep(o: Owner, v: View, removed: bool, ok: bool, effect: bool)
    requires OwnerInv(o, v, removed) && (o.prep.Journaled? || o.prep.Created?)
    ensures OwnerInv(PrepareStep(o, v, ok, effect), NextView(v, PrepareEffect(o.prep, v, ok || effect)), removed)
  {
    hide RecordThen, OnRecord, Persist;
  }

  lemma ChecksKeep(o: Owner, v: View, removed: bool, ok: bool, effect: bool)
    requires OwnerInv(o, v, removed)
    requires o.prep.Starting? || o.prep.Recorded? || o.prep.Durable? || o.prep.Noted? || Settled(o.prep)
    ensures OwnerInv(PrepareStep(o, v, ok, effect), v, removed)
  {
    hide RecordThen, FailPreparation, OnRecord;
    if o.prep.Starting? {
      JournalKeeps(o, v, removed, o.journal.(open := effect));
      FailPreparationKeeps(o.(journal := o.journal.(open := effect)), v, removed);
    } else if !Settled(o.prep) {
      FailPreparationKeeps(o, v, removed);
    }
  }

  lemma PrepareKeeps(o: Owner, v: View, removed: bool, ok: bool, effect: bool)
    requires OwnerInv(o, v, removed)
    ensures Lawful(o, v, PrepareEffect(o.prep, v, ok || effect))
    ensures OwnerInv(PrepareStep(o, v, ok, effect), NextView(v, PrepareEffect(o.prep, v, ok || effect)), removed)
  {
    hide PrepareStep, LaunchInv, StopInv;
    match o.prep
    case Written => RecordsKeep(o, v, removed, ok, effect);
    case Pending => RecordsKeep(o, v, removed, ok, effect);
    case Spawned => RecordsKeep(o, v, removed, ok, effect);
    case Grouped => RecordsKeep(o, v, removed, ok, effect);
    case Journaled => LocksKeep(o, v, removed, ok, effect);
    case Created => LocksKeep(o, v, removed, ok, effect);
    case _ => ChecksKeep(o, v, removed, ok, effect);
  }

  /** Closing the account launcher leaves preparation, child and group alone. */
  lemma ClosedRests(o: Owner, lockReleased: bool)
    ensures var next := AccountClosed(o, lockReleased);
            && next.prep == o.prep && next.child == o.child && next.group == o.group && !next.lockOwned
            && next.state.launchAttempted == o.state.launchAttempted && next.state.groupAbsent == o.state.groupAbsent
            && !Past(next.stop)
  {
  }

  lemma JoinKeeps(o: Owner, v: View, removed: bool)
    requires OwnerInv(o, v, removed) && o.stop.Joining?
    ensures OwnerInv(AfterJoin(o), v, removed)
  {
    hide OwnerInv, Settled, Proven, AccountClosed;
    if o.lockOwned {
      JoinedKeeps(o, v, removed);
    } else {
      ClosedRests(o.(state := o.state.(joined := true)), !o.state.launchAttempted);
      RestKeeps(o, v, removed, AfterJoin(o));
    }
  }

  lemma JoinedKeeps(o: Owner, v: View, removed: bool)
    requires OwnerInv(o, v, removed) && o.stop.Joining?
    ensures OwnerInv(o.(state := o.state.(joined := true), stop := Verifying), v, removed)
  {
    hide LaunchInv, LockInv, OnRecord;
  }

  lemma ReleaseKeeps(o: Owner, v: View, removed: bool, ok: bool)
    requires OwnerInv(o, v, removed) && o.stop.Recording?
    ensures OwnerInv(RecordRelease(o, ok), v, removed)
  {
    hide LaunchInv, LockInv;
  }

  lemma SealKeeps(o: Owner, v: View, removed: bool, ok: bool)
    requires OwnerInv(o, v, removed) && o.stop.Sealing?
    ensures OwnerInv(Seal(o, ok), v, removed)
  {
    hide Persist, Persists, OwnerInv;
    RestKeeps(o, v, removed, Seal(o, ok));
  }

  lemma ProbeKeeps(o: Owner, v: View, removed: bool, ok: bool, absent: bool)
    requires OwnerInv(o, v, removed) && o.stop.Probing?
    ensures OwnerInv(ProbeStep(o, ok, absent), v, removed)
  {
    hide OnRecord, LockInv;
  }

  lemma ProvenGone(o: Owner, v: View, removed: bool)
    requires OwnerInv(o, v, removed) && Proven(o.prep, o.child, o.streamsClosed, o.state)
    ensures !Alive(o.group)
  {
    hide LockInv, StopInv;
  }

  /** Unlinking is the one step after which the owner holds no lock. */
  lemma UnlinkKeeps(o: Owner, v: View, removed: bool, next: Owner)
    requires OwnerInv(o, v, removed) && o.stop.Unlinking?
    requires next == Unlinked(o) || next == FailStop(o)
    ensures OwnerInv(next, Free, true)
  {
    hide LaunchInv, OnRecord;
    ProvenGone(o, v, removed);
  }

  lemma StopKeeps(o: Owner, v: View, removed: bool, ok: bool, effect: bool)
    requires OwnerInv(o, v, removed) && !o.stop.Unlinking?
    ensures OwnerInv(StopStep(o, v, ok, effect), v, removed)
  {
    hide AfterJoin, RecordRelease, Seal, ProbeStep, Persist, OwnerInv;
    match o.stop
    case Probing => ProbeKeeps(o, v, removed, ok, effect);
    case Joining =>
      if ok {
        JoinKeeps(o, v, removed);
      } else {
        RestKeeps(o, v, removed, StopStep(o, v, ok, effect));
      }
    case Recording => ReleaseKeeps(o, v, removed, ok);
    case Sealing => SealKeeps(o, v, removed, ok);
    case Failing => RestKeeps(o, v, removed, StopStep(o, v, ok, effect));
    case _ => AdvanceKeeps(o, v, removed, ok, effect);
  }

  lemma FailKeeps(o: Owner, v: View, removed: bool)
    requires OwnerInv(o, v, removed)
    ensures OwnerInv(FailStop(o), v, removed)
  {
    RestKeeps(o, v, removed, FailStop(o));
  }

  /** Probing and recording begin once their one condition is met. */
  lemma MoveKeeps(o: Owner, v: View, removed: bool)
    requires OwnerInv(o, v, removed)
    ensures o.stop.Waiting? && Settled(o.prep) ==> OwnerInv(o.(stop := Probing), v, removed)
    ensures o.stop.Verifying? && v == Mine(true) ==> OwnerInv(o.(stop := Recording), v, removed)
  {
    hide LaunchInv, LockInv, OnRecord, Proven;
  }

  lemma AdvanceKeeps(o: Owner, v: View, removed: bool, ok: bool, effect: bool)
    requires OwnerInv(o, v, removed)
    requires o.stop.Waiting? || o.stop.Verifying? || o.stop.Syncing? || o.stop.Idle? || o.stop.Ended?
    ensures OwnerInv(StopStep(o, v, ok, effect), v, removed)
  {
    hide OwnerInv, ProbeStep, AfterJoin, RecordRelease, Unlinked, Seal, Abandon, Settled, FailStop;
    if o.stop.Syncing? && ok {
      RestKeeps(o, v, removed, StopStep(o, v, ok, effect));
    } else {
      MoveKeeps(o, v, removed);
      FailKeeps(o, v, removed);
    }
  }

  lemma SpawnKeeps(o: Owner, v: View, removed: bool, result: SpawnResult)
    requires OwnerInv(o, v, removed) && o.prep.Durable?
    ensures OwnerInv(SpawnStep(o, result), v, removed)
  {
    hide OnRecord, Proven, StopInv;
    NotPast(o, v, removed);
    QuietStop(o, SpawnStep(o, result), v);
  }

  lemma ExitKeeps(o: Owner, v: View, removed: bool)
    requires OwnerInv(o, v, removed) && o.child.Child? && o.child.hasPid && !o.group.root
    ensures OwnerInv(o.(state := o.state.(rootExited := true)), v, removed)
  {
    hide OnRecord, LockInv, LaunchInv, Past;
  }

  lemma CloseKeeps(o: Owner, v: View, removed: bool, spawnError: bool)
    requires OwnerInv(o, v, removed)
    ensures OwnerInv(CloseStep(o, spawnError), v, removed)
  {
    hide OnRecord, LockInv, Before, Past;
  }

  lemma EvidenceKeeps(o: Owner, v: View, removed: bool, m: Move)
    requires OwnerInv(o, v, removed) && (m.ExitEvent? || m.CloseEvent?)
    ensures OwnerInv(EventStep(o, m), v, removed)
  {
    hide OwnerInv, CloseStep;
    if m.CloseEvent? {
      CloseKeeps(o, v, removed, m.spawnError);
    } else if o.child.Child? && o.child.hasPid && !o.group.root {
      ExitKeeps(o, v, removed);
    }
  }

  lemma EventKeeps(o: Owner, v: View, removed: bool, m: Move)
    requires OwnerInv(o, v, removed)
    ensures OwnerInv(EventStep(o, m), v, removed)
  {
    hide OnRecord, LaunchInv, LockInv, Proven, SpawnStep, Releasing;
    if m.Spawn? {
      if o.prep.Durable? {
        SpawnKeeps(o, v, removed, m.result);
      }
    } else if m.ExitEvent? || m.CloseEvent? {
      EvidenceKeeps(o, v, removed, m);
    } else {
      RestKeepsStart(o, v, removed, m);
    }
  }

  lemma RestKeepsStart(o: Owner, v: View, removed: bool, m: Move)
    requires OwnerInv(o, v, removed) && !m.Spawn? && !m.ExitEvent? && !m.CloseEvent?
    ensures OwnerInv(EventStep(o, m), v, removed)
  {
    hide OwnerInv;
    if m.BeginStop? && o.stop.Idle? {
      RestKeeps(o, v, removed, EventStep(o, m));
    } else {
      CrashKeeps(o, v, removed);
    }
  }

  lemma CrashKeeps(o: Owner, v: View, removed: bool)
    requires OwnerInv(o, v, removed)
    ensures OwnerInv(o.(crashed := true), v, removed)
  {
    hide LaunchInv, LockInv, StopInv;
  }

  lemma StepKeeps(o: Owner, v: View, removed: bool, m: Move)
    requires OwnerInv(o, v, removed)
    ensures var effect := EffectOf(o, v, m);
            Lawful(o, v, effect) && OwnerInv(Step(o, v, m), NextView(v, effect), removed || effect == Unlink)
  {
    hide PrepareStep, AfterJoin, RecordRelease, Seal, ProbeStep, Persist, EventStep, LaunchInv, LockInv, Unlinked,
        FailStop;
    if OnGroup(m) {
      GroupKeeps(o, v, removed, m);
    } else if m.Prepare? {
      PrepareKeeps(o, v, removed, m.ok, m.effect);
    } else if m.Proceed? {
      if o.stop.Unlinking? {
        UnlinkKeeps(o, v, removed, Unlinked(o));
        UnlinkKeeps(o, v, removed, FailStop(o));
        FailKeeps(o, v, removed);
        UnlinkLawful(o, v, removed);
      } else {
        StopKeeps(o, v, removed, m.ok, m.effect);
      }
    } else {
      EventKeeps(o, v, removed, m);
    }
  }

  /** At the unlink the last record is the owner's knowledge, complete and true. */
  lemma UnlinkLawful(o: Owner, v: View, removed: bool)
    requires OwnerInv(o, v, removed) && o.stop.Unlinking?
    ensures v == Mine(true) && Removable(o)
  {
    ProvenGone(o, v, removed);
  }

  // --------------------------------------- what the journal says of a group

  /** A group that has a member, or may get one with the next step, is on record. */
  predicate Evident(o: Owner) {
    Alive(o.group) || o.prep.Durable? ==> TellsOfLaunch(o.journal.records)
  }

  /** While a group may be alive its owner knows of the launch and not of its end. */
  lemma KnowsOfLaunch(o: Owner, v: View, removed: bool)
    requires OwnerInv(o, v, removed) && (Alive(o.group) || o.prep.Durable? || o.prep.Pending?)
    ensures o.state.launchAttempted && !o.state.groupAbsent
  {
    hide LockInv, StopInv;
  }

  predicate SameEvidence(o: Owner, next: Owner) {
    next.group == o.group && next.journal.records == o.journal.records && (next.prep.Durable? ==> o.prep.Durable?)
  }

  lemma SameEvident(o: Owner, next: Owner)
    requires Evident(o) && SameEvidence(o, next)
    ensures Evident(next)
  {
  }

  /** A record of what the owner knows keeps a living group on record. */
  lemma RecordEvident(o: Owner, v: View, removed: bool, k: Knowledge, ok: bool, next: Owner)
    requires OwnerInv(o, v, removed) && Evident(o)
    requires k.launchAttempted == o.state.launchAttempted && k.groupAbsent == o.state.groupAbsent
    requires next.group == o.group && next.journal.records == Persist(o.journal, o.kind, k, ok).records
    requires next.prep.Durable? ==> o.prep.Durable? || (o.prep.Pending? && Persists(o.journal, ok))
    ensures Evident(next)
  {
    hide OwnerInv;
    if Alive(next.group) || next.prep.Durable? {
      KnowsOfLaunch(o, v, removed);
    }
  }

  lemma RecordThenEvident(o: Owner, v: View, removed: bool, ok: bool, next: Prep)
    requires OwnerInv(o, v, removed) && Evident(o) && (next.Durable? ==> o.prep.Pending?)
    ensures Evident(RecordThen(o, ok, next))
  {
    hide OwnerInv, Evident, Persist, Persists, FailPreparation;
    FailureLeaves(o.(journal := Persist(o.journal, o.kind, o.state, ok)));
    RecordEvident(o, v, removed, o.state, ok, RecordThen(o, ok, next));
  }

  lemma GroupedEvident(o: Owner, v: View, removed: bool, ok: bool)
    requires OwnerInv(o, v, removed) && Evident(o)
    ensures Evident(RecordThen(o.(state := o.state.(phase := Running)), ok, Done))
  {
    hide OwnerInv, Evident, Persist, Persists;
    var marked := o.(state := o.state.(phase := Running));
    RecordEvident(o, v, removed, marked.state, ok, RecordThen(marked, ok, Done));
  }

  lemma FailureLeaves(o: Owner)
    ensures FailPreparation(o).group == o.group && FailPreparation(o).journal == o.journal
    ensures FailPreparation(o).prep == Failed
  {
  }

  lemma EarlySteady(o: Owner, v: View, ok: bool, effect: bool)
    requires o.prep.Starting? || o.prep.Journaled? || o.prep.Created?
    ensures SameEvidence(o, PrepareStep(o, v, ok, effect))
  {
    hide FailPreparation;
    FailureLeaves(o);
    FailureLeaves(o.(journal := o.journal.(open := effect)));
  }

  lemma LateSteady(o: Owner, v: View, ok: bool, effect: bool)
    requires o.prep.Recorded? || o.prep.Durable? || o.prep.Noted? || Settled(o.prep)
             || (o.prep.Grouped? && (o.closing || o.state.rootExited || (!ok && !effect)))
    ensures SameEvidence(o, PrepareStep(o, v, ok, effect))
  {
    hide FailPreparation, RecordThen;
    FailureLeaves(o);
  }

  lemma PrepareEvident(o: Owner, v: View, removed: bool, ok: bool, effect: bool)
    requires OwnerInv(o, v, removed) && Evident(o)
    ensures Evident(PrepareStep(o, v, ok, effect))
  {
    hide OwnerInv, Evident, RecordThen;
    if o.prep.Written? || o.prep.Pending? || o.prep.Spawned? {
      RecordThenEvident(o, v, removed, ok,
                        if o.prep.Written? then Recorded else if o.prep.Pending? then Durable else Noted);
    } else if o.prep.Grouped? && !o.closing && !o.state.rootExited && (ok || effect) {
      GroupedEvident(o, v, removed, ok);
    } else {
      if Before(o.prep) && !o.prep.Recorded? {
        EarlySteady(o, v, ok, effect);
      } else {
        LateSteady(o, v, ok, effect);
      }
      SameEvident(o, PrepareStep(o, v, ok, effect));
    }
  }

  lemma ReleaseEvident(o: Owner, v: View, removed: bool, ok: bool)
    requires OwnerInv(o, v, removed) && Evident(o)
    ensures Evident(RecordRelease(o, ok))
  {
    hide OwnerInv, Evident, Persist, Persists;
    var k := o.state.(phase := if o.kind == Managed then ReleasePending else Closed);
    RecordEvident(o, v, removed, k, ok, RecordRelease(o, ok));
  }

  lemma SealEvident(o: Owner, v: View, removed: bool, ok: bool)
    requires OwnerInv(o, v, removed) && Evident(o)
    ensures Evident(Seal(o, ok))
  {
    hide OwnerInv, Evident, Persist, Persists;
    if o.state.lockReleased && !o.journal.failed && o.journal.open {
      RecordEvident(o, v, removed, o.state.(phase := Closed), ok, Seal(o, ok));
    } else {
      SameEvident(o, Seal(o, ok));
    }
  }

  lemma AbandonEvident(o: Owner, v: View, removed: bool, ok: bool)
    requires OwnerInv(o, v, removed) && Evident(o)
    ensures Evident(Abandon(o, ok))
  {
    hide OwnerInv, Evident, Persist, Persists;
    if o.journal.open && !o.journal.failed {
      RecordEvident(o, v, removed, o.state, ok, Abandon(o, ok));
    } else {
      SameEvident(o, Abandon(o, ok));
    }
  }

  lemma CloseLeaves(o: Owner, lockReleased: bool)
    ensures SameEvidence(o, AccountClosed(o, lockReleased))
  {
  }

  lemma JoinLeaves(o: Owner)
    ensures SameEvidence(o, AfterJoin(o))
  {
    hide AccountClosed;
    CloseLeaves(o.(state := o.state.(joined := true)), !o.state.launchAttempted);
  }

  lemma JoinSteady(o: Owner, v: View, ok: bool, effect: bool)
    requires o.stop.Joining? || o.stop.Unlinking?
    ensures SameEvidence(o, StopStep(o, v, ok, effect))
  {
    hide AccountClosed, AfterJoin, RecordRelease, Seal, Abandon, ProbeStep;
    JoinLeaves(o);
    CloseLeaves(o, true);
  }

  lemma ProbeSteady(o: Owner, ok: bool, effect: bool)
    ensures SameEvidence(o, ProbeStep(o, ok, effect)) && SameEvidence(o, FailStop(o))
  {
    hide Proven, Alive;
  }

  lemma MoveSteady(o: Owner)
    ensures SameEvidence(o, o) && SameEvidence(o, o.(stop := Probing)) && SameEvidence(o, o.(stop := Recording))
    ensures SameEvidence(o, o.(pendingReleaseSync := false, state := o.state.(lockReleased := true), stop := Sealing))
  {
  }

  lemma WaitSteady(o: Owner, v: View, ok: bool, effect: bool)
    requires !o.stop.Recording? && !o.stop.Sealing? && !o.stop.Failing? && !o.stop.Joining? && !o.stop.Unlinking?
    ensures SameEvidence(o, StopStep(o, v, ok, effect))
  {
    hide RecordRelease, Seal, Abandon, Settled, AfterJoin, Unlinked, ProbeStep, FailStop, SameEvidence;
    ProbeSteady(o, ok, effect);
    MoveSteady(o);
  }

  lemma StopEvident(o: Owner, v: View, removed: bool, ok: bool, effect: bool)
    requires OwnerInv(o, v, removed) && Evident(o)
    ensures Evident(StopStep(o, v, ok, effect))
  {
    hide OwnerInv, Evident, RecordRelease, Seal, Abandon, AfterJoin, Unlinked, ProbeStep, SameEvidence;
    match o.stop
    case Recording => ReleaseEvident(o, v, removed, ok);
    case Sealing => SealEvident(o, v, removed, ok);
    case Failing => AbandonEvident(o, v, removed, ok);
    case _ =>
      if o.stop.Joining? || o.stop.Unlinking? {
        JoinSteady(o, v, ok, effect);
      } else {
        WaitSteady(o, v, ok, effect);
      }
      SameEvident(o, StopStep(o, v, ok, effect));
  }

  lemma StepEvident(o: Owner, v: View, removed: bool, m: Move)
    requires OwnerInv(o, v, removed) && Evident(o)
    ensures Evident(Step(o, v, m))
  {
    hide OwnerInv, PrepareStep, StopStep;
    if m.Prepare? {
      PrepareEvident(o, v, removed, m.ok, m.effect);
    } else if m.Proceed? {
      StopEvident(o, v, removed, m.ok, m.effect);
    }
  }
}

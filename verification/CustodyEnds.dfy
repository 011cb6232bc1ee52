/** How stops end: what an owner has proved, recorded and released when its
    stop is over, and where a stop that fails leaves it. */
module CustodyEnds {
  import opened Custody

  /** Everything a stop waits for has happened and is known. */
  predicate Gone(o: Owner) {
    && Settled(o.prep) && o.state.rootExited
    && (if o.child.Child? then o.state.groupAbsent && o.streamsClosed else !o.state.launchAttempted)
  }

  predicate Proved(p: Stop) {
    p.Joining? || p.Verifying? || p.Recording? || p.Unlinking? || p.Syncing? || p.Sealing? || p.Ended?
  }

  /** A record of a phase tells what must be so in that phase. */
  predicate RecordFine(kind: Kind, k: Knowledge) {
    match k.phase
    case Preparing => !k.launchAttempted
    case LaunchPending => k.launchAttempted
    case Running => k.launchAttempted && !k.rootExited
    case ReleasePending => kind == Managed && Terminal(k) && k.rootExited && k.joined
    case Closed => Terminal(k) && k.rootExited && k.joined && (kind == Managed ==> k.lockReleased)
    case Recovery => true
  }

  /** A stop that is over: closed, released, and the journal closed without
      a failure; what it knows is its journal's last record, but for the mark
      that the account launcher sets once the lock is gone. */
  predicate EndedWell(o: Owner) {
    && o.state.phase == Closed && o.state.lockReleased && o.state.joined && !o.journal.failed && !o.journal.open
    && (o.kind == Managed && o.journal.records != [] ==> OnRecord(o.journal.records, o.state))
    && (o.kind == Account && o.state.launchAttempted ==>
          && o.journal.records != []
          && o.journal.records[|o.journal.records| - 1].(lockReleased := true) == o.state)
  }

  predicate PhaseFits(o: Owner) {
    && (o.state.phase == Preparing ==> !o.state.launchAttempted)
    && (o.state.phase == LaunchPending || o.state.phase == Running ==> o.state.launchAttempted)
    && (o.state.phase == Running || o.state.phase == ReleasePending || o.state.phase == Closed ==> Settled(o.prep))
    && (o.stop.Failing? ==> o.state.phase == Recovery)
    && (o.stop.Unlinking? && o.kind == Account ==> o.state.phase == Closed)
    && (o.closing && o.stop.Idle? ==> o.state.phase == Recovery || (o.kind == Account && o.state.phase == Closed))
    && (!o.closing ==> o.stop.Idle?)
    && (o.prep.Failed? && !o.state.launchAttempted ==> o.state.rootExited && o.state.groupAbsent)
  }

  /** A managed journal that has failed was not full: a full one is refused, not spoiled. */
  predicate Roomy(kind: Kind, j: Journal) {
    kind == Managed && j.failed ==> |j.records| < MAX_RECORDS
  }

  predicate StopFits(o: Owner) {
    && (Proved(o.stop) ==> Gone(o))
    && (Proved(o.stop) && !o.stop.Joining? ==> o.state.joined)
    && (o.stop.Ended? ==> EndedWell(o))
    && (o.stop.Syncing? || o.stop.Sealing? ==> o.kind == Managed)
    && (o.kind == Managed && !o.journal.open && !o.stop.Ended? ==> o.journal.records == [])
    && (o.prep.Starting? ==> o.journal.records == [] && !o.journal.open)
    && Roomy(o.kind, o.journal)
    && (o.stop.Recording? || o.stop.Unlinking? ==> !o.journal.failed)
  }

  predicate RecordsFine(kind: Kind, records: seq<Knowledge>) {
    forall i :: 0 <= i < |records| ==> RecordFine(kind, records[i])
  }

  predicate EndInv(o: Owner) {
    PhaseFits(o) && StopFits(o) && RecordsFine(o.kind, o.journal.records)
  }

  // ----------------------------------------------------------- every step

  lemma RecordAdded(kind: Kind, records: seq<Knowledge>, k: Knowledge)
    requires RecordsFine(kind, records) && RecordFine(kind, k)
    ensures RecordsFine(kind, records + [k])
  {
    hide RecordFine;
  }

  /** A journal write adds the state, if that is fit to be recorded. */
  lemma PersistFine(o: Owner, k: Knowledge, ok: bool)
    requires RecordsFine(o.kind, o.journal.records) && (Persists(o.journal, ok) ==> RecordFine(o.kind, k))
    ensures var j := Persist(o.journal, o.kind, k, ok);
            && RecordsFine(o.kind, j.records) && j.open == o.journal.open && (j.records != o.journal.records ==> j.open)
            && (Roomy(o.kind, o.journal) ==> Roomy(o.kind, j)) && (Persists(o.journal, ok) ==> !j.failed)
  {
    hide RecordFine, RecordsFine;
    if Persists(o.journal, ok) {
      RecordAdded(o.kind, o.journal.records, k);
    }
  }

  predicate EarlyRecord(p: Prep) {
    p.Written? || p.Pending? || p.Spawned?
  }

  /** A step of the preparation does not touch the stop, which is not that far. */
  lemma PreparationFits(o: Owner, next: Owner)
    requires EndInv(o) && !Settled(o.prep) && !next.prep.Starting?
    requires next.kind == o.kind && next.stop == o.stop && next.closing == o.closing
    requires (next.state.phase == o.state.phase && next.state.launchAttempted == o.state.launchAttempted) ||
             (next.state.phase == LaunchPending && next.state.launchAttempted && !o.closing) ||
             (next.state.phase == Running && next.state.launchAttempted && !o.closing && Settled(next.prep))
    requires RecordsFine(o.kind, next.journal.records)
    requires next.journal.records != [] ==> next.journal.open || (o.kind == Account)
    requires next.prep.Failed? && !next.state.launchAttempted ==> next.state.rootExited && next.state.groupAbsent
    requires Roomy(o.kind, next.journal)
    ensures EndInv(next)
  {
    hide RecordsFine, EndedWell;
  }

  lemma FailureFits(o: Owner)
    requires EndInv(o) && !Settled(o.prep) && (o.kind == Managed && o.journal.records != [] ==> o.journal.open)
    ensures EndInv(FailPreparation(o))
  {
    hide EndInv, RecordsFine;
    assert RecordsFine(o.kind, o.journal.records) && Roomy(o.kind, o.journal) by {
      OfEndInv(o);
    }
    PreparationFits(o, FailPreparation(o));
  }

  lemma OfEndInv(o: Owner)
    requires EndInv(o)
    ensures RecordsFine(o.kind, o.journal.records)
    ensures o.kind == Managed && o.journal.records != [] && !o.stop.Ended? ==> o.journal.open
    ensures !Settled(o.prep) ==> !Proved(o.stop)
    ensures Roomy(o.kind, o.journal)
  {
    hide RecordsFine;
  }

  lemma JournalFits(o: Owner, j: Journal)
    requires EndInv(o) && !Settled(o.prep) && !o.prep.Starting? && RecordsFine(o.kind, j.records)
    requires j.open == o.journal.open && (j.records != o.journal.records ==> j.open) && Roomy(o.kind, j)
    ensures EndInv(o.(journal := j))
  {
    hide EndInv, RecordsFine;
    OfEndInv(o);
    PreparationFits(o, o.(journal := j));
  }

  lemma EarlyRecordFine(o: Owner, v: View, removed: bool)
    requires OwnerInv(o, v, removed) && PhaseFits(o) && EarlyRecord(o.prep)
    ensures RecordFine(o.kind, o.state)
  {
    hide LockInv, StopInv;
  }

  lemma RecordingFits(o: Owner, v: View, removed: bool, ok: bool, next: Prep)
    requires OwnerInv(o, v, removed) && EndInv(o) && EarlyRecord(o.prep) && !next.Starting? && !next.Failed?
    ensures EndInv(RecordThen(o, ok, next))
  {
    hide RecordsFine, Persist, Persists, OwnerInv, RecordFine, EndInv, FailPreparation, Settled;
    assert RecordFine(o.kind, o.state) by {
      assert PhaseFits(o) by {
        PhaseOf(o);
      }
      EarlyRecordFine(o, v, removed);
    }
    OfEndInv(o);
    NotSettled(o.prep);
    PersistFine(o, o.state, ok);
    var j := Persist(o.journal, o.kind, o.state, ok);
    JournalFits(o, j);
    OfEndInv(o.(journal := j));
    FailureFits(o.(journal := j));
    PreparationFits(o, o.(journal := j, prep := next));
  }

  lemma PhaseOf(o: Owner)
    requires EndInv(o)
    ensures PhaseFits(o) && StopFits(o)
  {
  }

  lemma NotSettled(p: Prep)
    ensures EarlyRecord(p) || p.Grouped? ==> !Settled(p)
  {
  }

  lemma RunningFits(o: Owner, v: View, removed: bool, ok: bool)
    requires OwnerInv(o, v, removed) && EndInv(o) && o.prep.Grouped? && !o.closing && !o.state.rootExited
    ensures EndInv(RecordThen(o.(state := o.state.(phase := Running)), ok, Done))
  {
    hide RecordsFine, Persist, Persists, LockInv, StopInv, EndedWell;
    assert o.state.launchAttempted;
    var k := o.state.(phase := Running);
    PersistFine(o, k, ok);
    OfEndInv(o);
    var j := Persist(o.journal, o.kind, k, ok);
    PreparationFits(o, RecordThen(o.(state := k), ok, Done));
  }

  lemma PrepareFits(o: Owner, v: View, removed: bool, ok: bool, effect: bool)
    requires OwnerInv(o, v, removed) && EndInv(o)
    ensures EndInv(PrepareStep(o, v, ok, effect))
  {
    hide RecordsFine, RecordThen, OwnerInv, EndInv, FailPreparation;
    OfEndInv(o);
    if EarlyRecord(o.prep) {
      RecordingFits(o, v, removed, ok,
                    if o.prep.Written? then Recorded else if o.prep.Pending? then Durable else Noted);
    } else if o.prep.Grouped? && !o.closing && !o.state.rootExited && (ok || effect) {
      RunningFits(o, v, removed, ok);
    } else if o.prep.Starting? {
      StartingFits(o, ok, effect);
    } else if !Settled(o.prep) {
      ChecksFit(o, v, ok, effect);
    }
  }

  lemma ChecksFit(o: Owner, v: View, ok: bool, effect: bool)
    requires EndInv(o) && !Settled(o.prep) && !EarlyRecord(o.prep) && !o.prep.Starting?
    requires o.prep.Grouped? ==> o.closing || o.state.rootExited || (!ok && !effect)
    ensures EndInv(PrepareStep(o, v, ok, effect))
  {
    hide RecordsFine, RecordThen, EndInv, FailPreparation, Settled;
    OfEndInv(o);
    FailureFits(o);
    CheckMoves(o, v, ok, effect);
    if PrepareStep(o, v, ok, effect) != FailPreparation(o) {
      PreparationFits(o, PrepareStep(o, v, ok, effect));
    }
  }

  /** What such a step may change when it does not fail. */
  lemma CheckMoves(o: Owner, v: View, ok: bool, effect: bool)
    requires !Settled(o.prep) && !EarlyRecord(o.prep) && !o.prep.Starting?
    requires o.prep.Grouped? ==> o.closing || o.state.rootExited || (!ok && !effect)
    ensures var next := PrepareStep(o, v, ok, effect);
            next != FailPreparation(o) ==>
              && !next.prep.Starting? && !next.prep.Failed? && next.kind == o.kind && next.stop == o.stop
              && next.closing == o.closing
              && next.journal == o.journal
              && (next.state == o.state ||
                  (next.state.phase == LaunchPending && next.state.launchAttempted && !o.closing))
  {
    hide RecordThen, FailPreparation;
  }

  lemma StartingFits(o: Owner, ok: bool, effect: bool)
    requires EndInv(o) && o.prep.Starting?
    ensures EndInv(PrepareStep(o, Free, ok, effect))
  {
    hide FailPreparation, EndedWell;
    PreparationFits(o, o.(journal := o.journal.(open := true), prep := Journaled));
    PreparationFits(o, FailPreparation(o.(journal := o.journal.(open := effect)))) by {
      assert FailPreparation(o.(journal := o.journal.(open := effect))).prep.Failed? by {
        FailureIs(o.(journal := o.journal.(open := effect)));
      }
      FailureIs(o.(journal := o.journal.(open := effect)));
    }
  }

  lemma FailureIs(o: Owner)
    ensures var next := FailPreparation(o);
            && next.prep.Failed? && next.kind == o.kind && next.stop == o.stop && next.closing == o.closing
            && next.state.phase == o.state.phase && next.state.launchAttempted == o.state.launchAttempted
            && next.journal == o.journal
            && (next.state.launchAttempted || (next.state.rootExited && next.state.groupAbsent))
  {
  }

  lemma FailFits(o: Owner)
    requires EndInv(o) && o.closing && !o.stop.Ended?
    ensures EndInv(FailStop(o))
  {
    hide RecordsFine;
  }

  lemma ClosedFits(o: Owner, lockReleased: bool)
    requires EndInv(o) && o.kind == Account && o.closing && Gone(o) && o.state.joined && !o.stop.Ended?
    requires lockReleased && o.state.launchAttempted ==>
               && OnRecord(o.journal.records, o.state) && o.state.phase == Closed
    ensures EndInv(AccountClosed(o, lockReleased))
  {
    hide RecordsFine;
  }

  lemma JoinFits(o: Owner)
    requires EndInv(o) && o.stop.Joining?
    ensures EndInv(AfterJoin(o))
  {
    hide RecordsFine, AccountClosed;
    var joined := o.(state := o.state.(joined := true));
    if !o.lockOwned && o.kind == Account {
      assert EndInv(joined);
      ClosedFits(joined, !o.state.launchAttempted);
    }
  }

  lemma ReleaseFits(o: Owner, v: View, removed: bool, ok: bool)
    requires OwnerInv(o, v, removed) && EndInv(o) && o.stop.Recording?
    ensures EndInv(RecordRelease(o, ok))
  {
    hide RecordsFine, Persist, Persists, LockInv, LaunchInv;
    var k := o.state.(phase := if o.kind == Managed then ReleasePending else Closed);
    PersistFine(o, k, ok);
  }

  lemma SealFits(o: Owner, ok: bool)
    requires EndInv(o) && o.stop.Sealing?
    ensures EndInv(Seal(o, ok))
  {
    hide RecordsFine, Persists;
    if o.state.lockReleased && !o.journal.failed && o.journal.open {
      PersistFine(o, o.state.(phase := Closed), ok);
    }
  }

  lemma AbandonFits(o: Owner, ok: bool)
    requires EndInv(o) && o.stop.Failing?
    ensures EndInv(Abandon(o, ok))
  {
    hide RecordsFine, Persists, Persist;
    if o.journal.open && !o.journal.failed {
      PersistFine(o, o.state, ok);
    }
  }

  lemma ProbeFits(o: Owner, v: View, removed: bool, ok: bool, absent: bool)
    requires OwnerInv(o, v, removed) && EndInv(o) && o.stop.Probing?
    ensures EndInv(ProbeStep(o, ok, absent))
  {
    hide RecordsFine, EndedWell, LockInv, LaunchInv, OnRecord;
    NoLaunchNoChild(o, v, removed);
  }

  lemma NoLaunchNoChild(o: Owner, v: View, removed: bool)
    requires OwnerInv(o, v, removed)
    ensures !o.state.launchAttempted ==> o.child.NoChild?
    ensures o.prep.Durable? ==> o.state.launchAttempted
  {
    hide LockInv, StopInv;
  }

  lemma UnlinkFits(o: Owner, v: View, removed: bool)
    requires OwnerInv(o, v, removed) && EndInv(o) && o.stop.Unlinking?
    ensures EndInv(Unlinked(o))
  {
    hide RecordsFine, AccountClosed, LockInv, LaunchInv;
    if o.kind == Account {
      ClosedFits(o, true);
    }
  }

  /** The stages that look, wait or sync. */
  lemma PassFits(o: Owner)
    requires EndInv(o)
    ensures o.stop.Waiting? && Settled(o.prep) ==> EndInv(o.(stop := Probing))
    ensures o.stop.Verifying? && !o.journal.failed ==> EndInv(o.(stop := Recording))
  {
    hide RecordsFine, EndedWell;
  }

  lemma SyncedFits(o: Owner)
    requires EndInv(o) && o.stop.Syncing?
    ensures EndInv(o.(pendingReleaseSync := false, state := o.state.(lockReleased := true), stop := Sealing))
  {
    hide RecordsFine, EndedWell;
  }

  lemma UnjoinedFits(o: Owner, effect: bool)
    requires EndInv(o) && o.stop.Joining?
    ensures EndInv(FailStop(o.(state := o.state.(joined := o.state.joined || effect))))
  {
    hide RecordsFine, EndedWell;
  }

  lemma StopsClosing(o: Owner)
    requires EndInv(o) && !o.stop.Idle?
    ensures o.closing
  {
    hide RecordsFine, StopFits;
  }

  lemma StopKeepsEnd(o: Owner, v: View, removed: bool, ok: bool, effect: bool)
    requires OwnerInv(o, v, removed) && EndInv(o)
    ensures EndInv(StopStep(o, v, ok, effect))
  {
    hide OwnerInv, EndInv, RecordRelease, Seal, Abandon, AfterJoin, Unlinked, ProbeStep, FailStop, Settled;
    if !o.stop.Idle? && !o.stop.Ended? {
      StopsClosing(o);
      FailFits(o);
    }
    match o.stop
    case Probing => ProbeFits(o, v, removed, ok, effect);
    case Joining =>
      JoinFits(o);
      UnjoinedFits(o, effect);
    case Recording => ReleaseFits(o, v, removed, ok);
    case Unlinking => UnlinkFits(o, v, removed);
    case Syncing => SyncedFits(o);
    case Sealing => SealFits(o, ok);
    case Failing => AbandonFits(o, ok);
    case _ => PassFits(o);
  }

  /** Exits, the end of the streams, a crash, a spawn and the begin of a stop. */
  lemma EventFits(o: Owner, v: View, removed: bool, m: Move)
    requires OwnerInv(o, v, removed) && EndInv(o)
    ensures EndInv(EventStep(o, m))
  {
    hide EndInv, LockInv, StopInv, LaunchInv, SpawnStep, CloseStep;
    if m.Spawn? && o.prep.Durable? {
      NoLaunchNoChild(o, v, removed);
      SpawnFits(o, m.result);
    } else if m.CloseEvent? {
      StreamsFit(o, m.spawnError);
    } else if !m.Spawn? {
      NoteFits(o, m);
    }
  }

  lemma NoteFits(o: Owner, m: Move)
    requires EndInv(o) && !m.Spawn? && !m.CloseEvent?
    ensures EndInv(EventStep(o, m))
  {
    hide RecordsFine;
  }

  lemma StreamsFit(o: Owner, spawnError: bool)
    requires EndInv(o)
    ensures EndInv(CloseStep(o, spawnError))
  {
    hide RecordsFine;
  }

  lemma SpawnFits(o: Owner, result: SpawnResult)
    requires EndInv(o) && o.prep.Durable? && o.state.launchAttempted
    ensures EndInv(SpawnStep(o, result))
  {
    hide EndInv, RecordsFine;
    OfEndInv(o);
    PreparationFits(o, SpawnStep(o, result));
  }

  lemma GroupFits(o: Owner, m: Move)
    requires EndInv(o)
    ensures EndInv(GroupStep(o, m))
  {
    hide RecordsFine, Alive;
  }

  lemma EndKeeps(o: Owner, v: View, removed: bool, m: Move)
    requires OwnerInv(o, v, removed) && EndInv(o)
    ensures EndInv(Step(o, v, m))
  {
    hide OwnerInv, EndInv, PrepareStep, StopStep, EventStep, GroupStep;
    GroupFits(o, m);
    if m.Prepare? {
      PrepareFits(o, v, removed, m.ok, m.effect);
    } else if m.Proceed? {
      StopKeepsEnd(o, v, removed, m.ok, m.effect);
    } else {
      EventFits(o, v, removed, m);
    }
  }

  lemma NewcomerEnds(kind: Kind)
    ensures EndInv(Newcomer(kind))
  {
  }

  // ------------------------------------------------------ what is released

  /** An owner that launched calls its lock released only after removing it. */
  predicate LetGo(o: Owner, removed: bool) {
    && (o.pendingReleaseSync || o.stop.Syncing? ==> removed)
    && (o.state.lockReleased && o.state.launchAttempted ==> removed)
    && (o.state.lockReleased ==> Settled(o.prep))
  }

  predicate SameClaim(o: Owner, next: Owner) {
    && next.pendingReleaseSync == o.pendingReleaseSync && next.state.lockReleased == o.state.lockReleased
    && next.state.launchAttempted == o.state.launchAttempted && (next.stop.Syncing? ==> o.stop.Syncing?)
    && (Settled(o.prep) ==> Settled(next.prep)) && (o.closing ==> next.closing)
  }

  lemma SameClaimLetsGo(o: Owner, next: Owner, removed: bool)
    requires LetGo(o, removed) && (SameClaim(o, next) || o == next)
    ensures LetGo(next, removed)
  {
    hide Settled;
  }

  lemma FailNoClaim(o: Owner, effect: bool)
    ensures SameClaim(o, FailStop(o))
    ensures SameClaim(o, FailStop(o.(state := o.state.(joined := o.state.joined || effect))))
  {
    hide Settled;
  }

  lemma ProbeNoClaim(o: Owner, ok: bool, effect: bool)
    ensures SameClaim(o, ProbeStep(o, ok, effect))
  {
    hide Settled, Proven, Alive;
  }

  lemma MoveNoClaim(o: Owner, ok: bool)
    ensures SameClaim(o, o.(stop := Probing)) && SameClaim(o, o.(stop := Recording)) && SameClaim(o, Abandon(o, ok))
  {
    hide Settled, Persist;
  }

  lemma RecordNoClaim(o: Owner, ok: bool)
    ensures SameClaim(o, RecordRelease(o, ok))
  {
    hide Settled, Persist, Persists;
  }

  lemma SealNoClaim(o: Owner, ok: bool)
    ensures SameClaim(o, Seal(o, ok))
  {
    hide Settled, Persist, Persists;
  }

  lemma ClosedLetsGo(o: Owner, lockReleased: bool, removed: bool)
    requires LetGo(o, removed) && Settled(o.prep) && (lockReleased && o.state.launchAttempted ==> removed)
    ensures LetGo(AccountClosed(o, lockReleased), removed)
  {
    hide Settled;
  }

  lemma JoinLetsGo(o: Owner, removed: bool)
    requires LetGo(o, removed) && Settled(o.prep)
    ensures LetGo(AfterJoin(o), removed)
  {
    hide Settled, AccountClosed;
    var joined := o.(state := o.state.(joined := true));
    ClosedLetsGo(joined, !o.state.launchAttempted, removed);
  }

  lemma UnlinkedLetsGo(o: Owner)
    requires LetGo(o, true) && Settled(o.prep)
    ensures LetGo(Unlinked(o), true)
  {
    hide Settled, AccountClosed;
    ClosedLetsGo(o, true, true);
  }

  lemma SyncedLetsGo(o: Owner, removed: bool)
    requires LetGo(o, removed) && Settled(o.prep) && o.stop.Syncing?
    ensures LetGo(o.(pendingReleaseSync := false, state := o.state.(lockReleased := true), stop := Sealing), removed)
  {
  }

  lemma StopLetsGo(o: Owner, v: View, removed: bool, ok: bool, effect: bool)
    requires (Proved(o.stop) ==> Settled(o.prep)) && LetGo(o, removed)
    ensures LetGo(StopStep(o, v, ok, effect), removed || (o.stop.Unlinking? && (ok || effect)))
  {
    hide LetGo, SameClaim, Settled, FailStop, ProbeStep, AfterJoin, RecordRelease, Unlinked, Seal, Abandon;
    FailNoClaim(o, effect);
    var next := StopStep(o, v, ok, effect);
    if o.stop.Unlinking? {
      LetGoGrows(next, o, removed);
      if ok {
        UnlinkedLetsGo(o);
      } else {
        SameClaimLetsGo(o, next, removed);
      }
    } else if o.stop.Joining? && ok {
      JoinLetsGo(o, removed);
    } else if o.stop.Syncing? && ok {
      SyncedLetsGo(o, removed);
    } else {
      PassNoClaim(o, v, ok, effect);
      SameClaimLetsGo(o, next, removed);
    }
  }

  lemma PassNoClaim(o: Owner, v: View, ok: bool, effect: bool)
    requires !o.stop.Unlinking? && !(o.stop.Joining? && ok) && !(o.stop.Syncing? && ok)
    ensures SameClaim(o, StopStep(o, v, ok, effect)) || StopStep(o, v, ok, effect) == o
  {
    hide SameClaim, Settled, FailStop, ProbeStep, AfterJoin, RecordRelease, Unlinked, Seal, Abandon;
    FailNoClaim(o, effect);
    match o.stop
    case Probing => ProbeNoClaim(o, ok, effect);
    case Recording => RecordNoClaim(o, ok);
    case Sealing => SealNoClaim(o, ok);
    case _ => MoveNoClaim(o, ok);
  }

  lemma LetGoKeeps(o: Owner, v: View, removed: bool, m: Move)
    requires OwnerInv(o, v, removed) && EndInv(o) && LetGo(o, removed)
    ensures LetGo(Step(o, v, m), removed || EffectOf(o, v, m) == Unlink)
  {
    hide OwnerInv, EndInv, StopStep, PrepareStep, PrepareEffect, LetGo;
    if m.Proceed? && !o.crashed {
      assert Proved(o.stop) ==> Settled(o.prep) by {
        OfEndInv(o);
      }
      StopLetsGo(o, v, removed, m.ok, m.effect);
      LetGoGrows(StopStep(o, v, m.ok, m.effect), o, removed);
    } else {
      RestLetsGo(o, v, removed, m);
    }
  }

  lemma LetGoGrows(t: Owner, o: Owner, removed: bool)
    requires LetGo(o, removed)
    ensures LetGo(o, true) && (LetGo(t, removed) ==> LetGo(t, true))
  {
  }

  lemma RestLetsGo(o: Owner, v: View, removed: bool, m: Move)
    requires LetGo(o, removed) && (o.crashed || !m.Proceed?)
    ensures LetGo(Step(o, v, m), removed) && EffectOf(o, v, m) != Unlink
  {
    hide LetGo, SameClaim, PrepareStep, StopStep, GroupStep, EventStep;
    PreparationClaim(o, v, m.Prepare? && m.ok, m.Prepare? && m.effect);
    EventClaim(o, m);
    if m.Prepare? && !Settled(o.prep) && !o.crashed {
      UnsettledLetsGo(o, PrepareStep(o, v, m.ok, m.effect), removed);
    } else {
      SameClaimLetsGo(o, Step(o, v, m), removed);
    }
  }

  /** Before the preparation is settled nothing has been released. */
  lemma UnsettledLetsGo(o: Owner, next: Owner, removed: bool)
    requires LetGo(o, removed) && !Settled(o.prep)
    requires next.pendingReleaseSync == o.pendingReleaseSync && next.state.lockReleased == o.state.lockReleased
    requires next.stop == o.stop
    ensures LetGo(next, removed)
  {
  }

  predicate SameRelease(o: Owner, next: Owner) {
    && next.pendingReleaseSync == o.pendingReleaseSync && next.state.lockReleased == o.state.lockReleased
    && next.stop == o.stop && next.closing == o.closing
    && (o.closing ==> next.state.launchAttempted == o.state.launchAttempted)
  }

  lemma FailReleases(o: Owner, j: Journal)
    ensures SameRelease(o, FailPreparation(o)) && SameRelease(o, FailPreparation(o.(journal := j)))
  {
  }

  lemma RecordReleases(o: Owner, k: Knowledge, ok: bool, next: Prep)
    requires k.lockReleased == o.state.lockReleased && k.launchAttempted == o.state.launchAttempted
    ensures SameRelease(o, RecordThen(o.(state := k), ok, next))
  {
    hide Persist, Persists, FailPreparation, SameRelease;
    var j := Persist(o.journal, o.kind, k, ok);
    StageReleases(o.(state := k), j, next);
    FailReleases(o.(state := k), j);
    StateReleases(o, k, RecordThen(o.(state := k), ok, next));
  }

  lemma StateReleases(o: Owner, k: Knowledge, next: Owner)
    requires k.lockReleased == o.state.lockReleased && k.launchAttempted == o.state.launchAttempted
    requires SameRelease(o.(state := k), next)
    ensures SameRelease(o, next)
  {
  }

  lemma StageReleases(o: Owner, j: Journal, next: Prep)
    ensures SameRelease(o, o) && SameRelease(o, o.(prep := next)) && SameRelease(o, o.(journal := j, prep := next))
    ensures SameRelease(o, o.(lockOwned := true, prep := next))
    ensures !o.closing ==>
              SameRelease(o, o.(state := o.state.(phase := LaunchPending, launchAttempted := true), prep := next))
    ensures SameRelease(o, o.(child := Child(true, true), prep := next))
  {
  }

  lemma PreparationClaim(o: Owner, v: View, ok: bool, effect: bool)
    ensures SameRelease(o, PrepareStep(o, v, ok, effect)) && (Settled(o.prep) ==> PrepareStep(o, v, ok, effect) == o)
  {
    hide FailPreparation, RecordThen, SameRelease;
    FailReleases(o, o.journal.(open := effect));
    assert o.(state := o.state) == o;
    match o.prep
    case Starting => StageReleases(o, o.journal.(open := true), Journaled);
    case Journaled => StageReleases(o, o.journal, Created);
    case Created => StageReleases(o, o.journal, Written);
    case Written => RecordReleases(o, o.state, ok, Recorded);
    case Recorded => StageReleases(o, o.journal, Pending);
    case Pending => RecordReleases(o, o.state, ok, Durable);
    case Spawned => RecordReleases(o, o.state, ok, Noted);
    case Noted => StageReleases(o, o.journal, Grouped);
    case Grouped => RecordReleases(o, o.state.(phase := Running), ok, Done);
    case _ => StageReleases(o, o.journal, o.prep);
  }

  lemma EventClaim(o: Owner, m: Move)
    ensures SameClaim(o, EventStep(o, m)) && SameClaim(o, GroupStep(o, m))
  {
    hide SameClaim, CloseStep, SpawnStep, GroupStep;
    SelfClaim(o, m.CloseEvent? && m.spawnError);
    GroupClaim(o, m);
    if m.Spawn? {
      SpawnClaim(o, m.result);
    }
  }

  lemma SelfClaim(o: Owner, spawnError: bool)
    ensures SameClaim(o, o) && SameClaim(o, o.(crashed := true)) && SameClaim(o, CloseStep(o, spawnError))
    ensures SameClaim(o, o.(state := o.state.(rootExited := true)))
    ensures SameClaim(o, o.(closing := true, stop := Waiting))
  {
    hide Settled;
  }

  lemma SpawnClaim(o: Owner, result: SpawnResult)
    ensures o.prep.Durable? ==> SameClaim(o, SpawnStep(o, result))
  {
  }

  lemma GroupClaim(o: Owner, m: Move)
    ensures SameClaim(o, GroupStep(o, m))
  {
    hide Settled, Alive;
  }

  // --------------------------------------------------------- never launched

  /** A stop never launches, and a preparation told to stop does not either. */
  lemma StaysStopped(o: Owner, v: View, m: Move)
    requires o.closing && !o.state.launchAttempted
    ensures Step(o, v, m).closing && !Step(o, v, m).state.launchAttempted
  {
    hide PrepareStep, StopStep, GroupStep, EventStep;
    PreparationClaim(o, v, m.Prepare? && m.ok, m.Prepare? && m.effect);
    EventClaim(o, m);
    if m.Proceed? {
      StopStaysStopped(o, v, m.ok, m.effect);
    }
  }

  lemma StopStaysStopped(o: Owner, v: View, ok: bool, effect: bool)
    requires o.closing && !o.state.launchAttempted
    ensures var next := StopStep(o, v, ok, effect); next.closing && !next.state.launchAttempted
  {
    hide FailStop, ProbeStep, AfterJoin, RecordRelease, Unlinked, Seal, Abandon, Settled;
    FailNoClaim(o, effect);
    if o.stop.Unlinking? || (o.stop.Joining? && ok) || (o.stop.Syncing? && ok) {
      ReleasingStaysStopped(o);
    } else {
      PassNoClaim(o, v, ok, effect);
    }
  }

  lemma ReleasingStaysStopped(o: Owner)
    requires o.closing && !o.state.launchAttempted
    ensures AfterJoin(o).closing && !AfterJoin(o).state.launchAttempted
    ensures Unlinked(o).closing && !Unlinked(o).state.launchAttempted
  {
  }
}

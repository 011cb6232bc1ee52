/** Where an owner's knowledge of its process comes from, and that it is true. */
module CustodyKnowledge {
  import opened Custody
  import opened CustodyRuns

  /** What an owner believes of its process, and what is so, is as before. */
  predicate SameFacts(o: Owner, next: Owner) {
    && next.state.rootExited == o.state.rootExited && next.state.groupAbsent == o.state.groupAbsent
    && next.prep.Failed? == o.prep.Failed? && SameRest(o, next)
  }

  predicate SameRest(o: Owner, next: Owner) {
    && next.state.joined == o.state.joined && next.state.launchAttempted == o.state.launchAttempted
    && next.streamsClosed == o.streamsClosed && next.child == o.child && next.group == o.group
  }

  /** A preparation that fails before the launch knows that nothing runs. */
  predicate FailedFacts(o: Owner, next: Owner) {
    && next.state.rootExited == (o.state.rootExited || !o.state.launchAttempted)
    && next.state.groupAbsent == (o.state.groupAbsent || !o.state.launchAttempted)
    && next.prep.Failed? && SameRest(o, next)
  }

  // ------------------------------------------------------- step by step

  lemma FailureFacts(o: Owner, j: Journal)
    ensures FailedFacts(o, FailPreparation(o.(journal := j)))
  {
  }

  lemma RecordFacts(o: Owner, ok: bool, next: Prep)
    requires !o.prep.Failed? && !next.Failed?
    ensures SameFacts(o, RecordThen(o, ok, next)) || FailedFacts(o, RecordThen(o, ok, next))
  {
    hide Persist, Persists, FailPreparation, FailedFacts;
    FailureFacts(o, Persist(o.journal, o.kind, o.state, ok));
  }

  function Marked(o: Owner): Owner {
    o.(state := o.state.(phase := LaunchPending, launchAttempted := true))
  }

  predicate EarlyCheck(p: Prep) {
    p.Starting? || p.Journaled? || p.Created? || p.Durable?
  }

  lemma EarlyFacts(o: Owner, v: View, ok: bool, effect: bool)
    requires EarlyCheck(o.prep)
    ensures SameFacts(o, PrepareStep(o, v, ok, effect)) || FailedFacts(o, PrepareStep(o, v, ok, effect))
  {
    hide RecordThen, FailPreparation, FailedFacts;
    FailureFacts(o, o.journal);
    FailureFacts(o, o.journal.(open := effect));
  }

  lemma MarkFacts(o: Owner, v: View, ok: bool, effect: bool)
    requires o.prep.Recorded?
    ensures SameFacts(Marked(o), PrepareStep(o, v, ok, effect)) || FailedFacts(o, PrepareStep(o, v, ok, effect))
  {
    hide RecordThen, FailPreparation, FailedFacts;
    FailureFacts(o, o.journal);
  }

  lemma LookFacts(o: Owner, v: View, ok: bool, effect: bool)
    requires o.prep.Noted?
    ensures var next := PrepareStep(o, v, ok, effect);
            || FailedFacts(o, next)
            || (ok && o.child == Child(true, false) && SameFacts(o.(child := Child(true, true)), next))
  {
    hide RecordThen, FailPreparation, FailedFacts;
    FailureFacts(o, o.journal);
  }

  /** The preparation marks the launch, proves the group by a successful look,
      or fails; otherwise it learns nothing. */
  lemma PrepareFacts(o: Owner, v: View, ok: bool, effect: bool)
    ensures var next := PrepareStep(o, v, ok, effect);
            || SameFacts(o, next) || (FailedFacts(o, next) && !o.prep.Failed?)
            || (o.prep.Recorded? && SameFacts(Marked(o), next))
            || (o.prep.Noted? && ok && o.child == Child(true, false) && SameFacts(o.(child := Child(true, true)), next))
  {
    hide RecordThen, FailPreparation, FailedFacts, SameFacts, Marked;
    if Settled(o.prep) {
      SameSelf(o);
    } else if o.prep.Written? || o.prep.Pending? || o.prep.Spawned? {
      RecordFacts(o, ok, if o.prep.Written? then Recorded else if o.prep.Pending? then Durable else Noted);
    } else if o.prep.Grouped? {
      RunningFacts(o, ok);
      FailureFacts(o, o.journal);
    } else if o.prep.Recorded? {
      MarkFacts(o, v, ok, effect);
    } else if o.prep.Noted? {
      LookFacts(o, v, ok, effect);
    } else {
      EarlyFacts(o, v, ok, effect);
    }
  }

  lemma SameSelf(o: Owner)
    ensures SameFacts(o, o)
  {
  }

  lemma RunningFacts(o: Owner, ok: bool)
    requires o.prep.Grouped?
    ensures var next := RecordThen(o.(state := o.state.(phase := Running)), ok, Done);
            SameFacts(o, next) || FailedFacts(o, next)
  {
    hide RecordThen;
    RecordFacts(o.(state := o.state.(phase := Running)), ok, Done);
  }

  predicate Probes(o: Owner) {
    o.stop.Probing? && o.state.rootExited && o.child == Child(true, true)
  }

  function Probed(o: Owner, absent: bool): Owner {
    if Probes(o) then o.(state := o.state.(groupAbsent := absent && !Alive(o.group))) else o
  }

  lemma FailStopFacts(o: Owner, k: Knowledge, j: Journal)
    ensures SameFacts(o.(state := k), FailStop(o.(state := k, journal := j)))
  {
  }

  lemma ProbeFacts(o: Owner, ok: bool, absent: bool)
    requires o.stop.Probing?
    ensures SameFacts(Probed(o, absent), ProbeStep(o, ok, absent))
  {
    hide Proven, Alive, FailStop, SameFacts;
    assert Probed(o, absent) == o.(state := Probe(o, absent));
    FailStopFacts(o, Probe(o, absent), o.journal);
    assert SameFacts(o.(state := Probe(o, absent)), o.(state := Probe(o, absent), stop := Joining)) by {
      StopSame(o.(state := Probe(o, absent)), Joining);
    }
  }

  lemma StopSame(o: Owner, stop: Stop)
    ensures SameFacts(o, o.(stop := stop))
  {
  }

  function Joined(o: Owner): Owner {
    o.(state := o.state.(joined := true))
  }

  lemma ClosedFacts(o: Owner, lockReleased: bool)
    ensures SameFacts(o, AccountClosed(o, lockReleased))
  {
  }

  lemma JoinFacts(o: Owner)
    ensures SameFacts(Joined(o), AfterJoin(o))
  {
    hide AccountClosed;
    ClosedFacts(Joined(o), !o.state.launchAttempted);
  }

  lemma ReleaseFacts(o: Owner, ok: bool)
    ensures SameFacts(o, RecordRelease(o, ok))
  {
    hide Persist, Persists;
  }

  lemma UnlinkedFacts(o: Owner)
    ensures SameFacts(o, Unlinked(o))
  {
    hide AccountClosed;
    ClosedFacts(o, true);
  }

  lemma EndFacts(o: Owner, ok: bool)
    ensures SameFacts(o, Seal(o, ok))
    ensures SameFacts(o, Abandon(o, ok))
  {
    hide Persist, Persists;
  }

  // The stages that wait, look or sync learn nothing.

  lemma WaitFacts(o: Owner, v: View, ok: bool, effect: bool)
    requires o.stop.Waiting?
    ensures SameFacts(o, StopStep(o, v, ok, effect))
  {
    hide RecordRelease, Unlinked, Seal, Abandon, ProbeStep, AfterJoin, Settled, Probe;
  }

  lemma VerifyFacts(o: Owner, v: View, ok: bool, effect: bool)
    requires o.stop.Verifying?
    ensures SameFacts(o, StopStep(o, v, ok, effect))
  {
    hide RecordRelease, Unlinked, Seal, Abandon, ProbeStep, AfterJoin, Settled, Probe;
  }

  lemma SyncFacts(o: Owner, v: View, ok: bool, effect: bool)
    requires o.stop.Syncing?
    ensures SameFacts(o, StopStep(o, v, ok, effect))
  {
    hide RecordRelease, Unlinked, Seal, Abandon, ProbeStep, AfterJoin, Settled, Probe;
  }

  lemma QuietFacts(o: Owner, v: View, ok: bool, effect: bool)
    requires !o.stop.Probing? && !o.stop.Joining?
    ensures SameFacts(o, StopStep(o, v, ok, effect))
  {
    hide RecordRelease, Unlinked, Seal, Abandon, FailStop, ProbeStep, AfterJoin, Settled, Probe, SameFacts;
    if o.stop.Waiting? {
      WaitFacts(o, v, ok, effect);
    } else if o.stop.Verifying? {
      VerifyFacts(o, v, ok, effect);
    } else if o.stop.Syncing? {
      SyncFacts(o, v, ok, effect);
    } else {
      FailStopFacts(o, o.state, o.journal);
      assert o.(state := o.state, journal := o.journal) == o == o.(state := o.state);
      ReleaseFacts(o, ok);
      UnlinkedFacts(o);
      EndFacts(o, ok);
      SameSelf(o);
    }
  }

  /** The stop learns of the group from its probe, and that the streams are
      joined from the join; nothing else. */
  lemma StopFacts(o: Owner, v: View, ok: bool, effect: bool)
    ensures var next := StopStep(o, v, ok, effect);
            SameFacts(if o.stop.Joining? && (ok || effect) then Joined(o) else Probed(o, effect), next)
  {
    hide RecordRelease, Unlinked, Seal, Abandon, FailStop, ProbeStep, AfterJoin, Settled, Alive, SameFacts;
    if o.stop.Probing? {
      ProbeFacts(o, ok, effect);
    } else if o.stop.Joining? {
      JoinFacts(o);
      var k := o.state.(joined := o.state.joined || effect);
      FailStopFacts(o, k, o.journal);
      assert o.(state := k, journal := o.journal) == o.(state := k);
      assert o.(state := k) == if effect then Joined(o) else o;
    } else {
      QuietFacts(o, v, ok, effect);
    }
  }

  /** A spawn that failed is told of by the close event of a child without a process id. */
  predicate SpawnFailed(o: Owner, m: Move) {
    m.CloseEvent? && m.spawnError && o.child.Child? && !o.child.hasPid && !o.group.root
  }

  predicate HearsExit(o: Owner, m: Move) {
    (m.ExitEvent? && o.child.Child? && o.child.hasPid && !o.group.root) || SpawnFailed(o, m)
  }

  /** What an event other than a spawn brings. */
  predicate NotedOnly(o: Owner, m: Move, next: Owner) {
    && next.state.rootExited == (o.state.rootExited || HearsExit(o, m))
    && next.state.groupAbsent == (o.state.groupAbsent || SpawnFailed(o, m))
    && next.streamsClosed == (o.streamsClosed || (m.CloseEvent? && o.child.Child? && !o.group.root))
    && next.state.joined == o.state.joined && next.state.launchAttempted == o.state.launchAttempted
    && next.prep == o.prep && next.child == o.child && next.group == o.group
  }

  lemma CloseFacts(o: Owner, m: Move)
    requires m.CloseEvent?
    ensures NotedOnly(o, m, CloseStep(o, m.spawnError))
  {
  }

  lemma NoteFacts(o: Owner, m: Move)
    requires !m.Prepare? && !m.Proceed? && !(m.Spawn? && o.prep.Durable?)
    ensures NotedOnly(o, m, EventStep(o, m))
  {
    hide CloseStep, SpawnStep;
    if m.CloseEvent? {
      CloseFacts(o, m);
      assert EventStep(o, m) == CloseStep(o, m.spawnError) by {
        CloseIs(o, m);
      }
    } else {
      OtherFacts(o, m);
    }
  }

  lemma CloseIs(o: Owner, m: Move)
    requires m.CloseEvent?
    ensures EventStep(o, m) == CloseStep(o, m.spawnError)
  {
    hide CloseStep, SpawnStep;
  }

  lemma OtherFacts(o: Owner, m: Move)
    requires !m.Prepare? && !m.Proceed? && !m.CloseEvent? && !(m.Spawn? && o.prep.Durable?)
    ensures NotedOnly(o, m, EventStep(o, m))
  {
    hide CloseStep, SpawnStep;
  }

  lemma SpawnFacts(o: Owner, result: SpawnResult)
    ensures var next := SpawnStep(o, result);
            && next.state == o.state && next.streamsClosed == o.streamsClosed
            && match result
               case Threw(started) => next.prep.Failed? && next.child == o.child && next.group == Group(started, false)
               case ReturnedWithoutPid =>
                 next.prep.Spawned? && next.child == Child(false, false) && next.group == o.group
               case ReturnedWithPid =>
                 next.prep.Spawned? && next.child == Child(true, false) && next.group == Group(true, false)
  {
  }

  /** The preparation ends without a launch. */
  predicate FailsEarly(o: Owner, next: Owner) {
    !o.prep.Failed? && next.prep.Failed? && !next.state.launchAttempted
  }

  /** An exit is known only from its event, from a spawn that failed, or
      because nothing was launched; the group's absence only from a probe or
      one of the last two; the streams' end only from the close event or the
      join; and the group is taken for the process's own only after a
      successful look. */
  lemma Learns(o: Owner, v: View, removed: bool, m: Move)
    requires OwnerInv(o, v, removed) && !o.crashed && !OnGroup(m)
    ensures LearnsOnly(o, m, Step(o, v, m))
  {
    hide PrepareStep, StopStep, EventStep, SpawnStep, OwnerInv, LearnsOnly;
    NothingLaunched(o, v, removed);
    if m.Prepare? {
      PrepareLearns(o, v, m);
    } else if m.Proceed? {
      StopLearns(o, v, m);
    } else if m.Spawn? && o.prep.Durable? {
      SpawnLearns(o, m);
      SpawnIs(o, m);
    } else {
      NoteLearns(o, m);
    }
  }

  predicate LearnsOnly(o: Owner, m: Move, next: Owner) {
    && (next.state.rootExited <==> o.state.rootExited || HearsExit(o, m) || FailsEarly(o, next))
    && (next.streamsClosed <==> o.streamsClosed || (m.CloseEvent? && o.child.Child? && !o.group.root))
    && (next.state.joined <==> o.state.joined || (m.Proceed? && o.stop.Joining? && (m.ok || m.effect)))
    && (if m.Proceed? && Probes(o) then next.state.groupAbsent == (m.effect && !Alive(o.group))
        else next.state.groupAbsent <==> o.state.groupAbsent || SpawnFailed(o, m) || FailsEarly(o, next))
    && (next.child == Child(true, true) && o.child != Child(true, true) ==> m.Prepare? && m.ok && o.prep.Noted?)
    && (m.Spawn? && o.prep.Durable? ==> next.prep == if m.result.Threw? then Failed else Spawned)
  }

  lemma PrepareLearns(o: Owner, v: View, m: Move)
    requires m.Prepare?
    ensures LearnsOnly(o, m, PrepareStep(o, v, m.ok, m.effect))
  {
    hide PrepareStep, Alive;
    PrepareFacts(o, v, m.ok, m.effect);
  }

  lemma StopLearns(o: Owner, v: View, m: Move)
    requires m.Proceed?
    ensures LearnsOnly(o, m, StopStep(o, v, m.ok, m.effect))
  {
    hide StopStep, SameFacts, LearnsOnly, Joined, Probed;
    StopFacts(o, v, m.ok, m.effect);
    StopTells(o, m, StopStep(o, v, m.ok, m.effect));
  }

  lemma StopTells(o: Owner, m: Move, next: Owner)
    requires m.Proceed?
    requires SameFacts(if o.stop.Joining? && (m.ok || m.effect) then Joined(o) else Probed(o, m.effect), next)
    ensures LearnsOnly(o, m, next)
  {
    hide Alive;
  }

  lemma SpawnLearns(o: Owner, m: Move)
    requires m.Spawn? && o.state.launchAttempted
    ensures LearnsOnly(o, m, SpawnStep(o, m.result))
  {
    hide SpawnStep, Alive;
    SpawnFacts(o, m.result);
  }

  lemma NoteLearns(o: Owner, m: Move)
    requires !m.Prepare? && !m.Proceed? && !(m.Spawn? && o.prep.Durable?)
    ensures LearnsOnly(o, m, EventStep(o, m))
  {
    hide EventStep, Alive;
    NoteFacts(o, m);
  }

  lemma SpawnIs(o: Owner, m: Move)
    requires m.Spawn? && o.prep.Durable?
    ensures EventStep(o, m) == SpawnStep(o, m.result)
  {
    hide SpawnStep;
  }

  // ------------------------------------------------------- what is true

  /** An exit is believed only of a root that is gone, and nothing is believed
      of a process that has not been started. */
  predicate Truthful(o: Owner) {
    && (o.state.rootExited || o.streamsClosed ==> !o.group.root)
    && (o.child.NoChild? && !o.prep.Failed? ==> !o.state.rootExited && !o.streamsClosed)
  }

  lemma NothingLaunched(o: Owner, v: View, removed: bool)
    requires OwnerInv(o, v, removed)
    ensures !o.state.launchAttempted ==> !Alive(o.group)
    ensures o.prep.Durable? ==> o.state.launchAttempted && o.child.NoChild?
    ensures o.state.groupAbsent ==> !Alive(o.group)
  {
    hide LockInv, StopInv;
  }

  lemma StepTruthful(o: Owner, v: View, removed: bool, m: Move)
    requires OwnerInv(o, v, removed) && Truthful(o)
    ensures Truthful(Step(o, v, m))
  {
    hide PrepareStep, StopStep, EventStep, GroupStep, OwnerInv, Truthful, Alive;
    NothingLaunched(o, v, removed);
    if OnGroup(m) {
      GroupTruthful(o, m);
    } else if !o.crashed {
      if m.Prepare? {
        PrepareTruthful(o, v, m);
      } else if m.Proceed? {
        StopTruthful(o, v, m);
      } else {
        EventTruthful(o, m);
      }
    }
  }

  lemma PrepareTruthful(o: Owner, v: View, m: Move)
    requires m.Prepare? && Truthful(o) && (!o.state.launchAttempted ==> !Alive(o.group))
    ensures Truthful(PrepareStep(o, v, m.ok, m.effect))
  {
    hide PrepareStep, SameFacts, FailedFacts, Truthful, Marked;
    PrepareFacts(o, v, m.ok, m.effect);
    PrepareTells(o, PrepareStep(o, v, m.ok, m.effect));
  }

  lemma PrepareTells(o: Owner, next: Owner)
    requires Truthful(o) && (!o.state.launchAttempted ==> !Alive(o.group))
    requires SameFacts(o, next) || FailedFacts(o, next) || SameFacts(Marked(o), next) ||
             (o.child == Child(true, false) && SameFacts(o.(child := Child(true, true)), next))
    ensures Truthful(next)
  {
  }

  lemma StopTruthful(o: Owner, v: View, m: Move)
    requires m.Proceed? && Truthful(o)
    ensures Truthful(StopStep(o, v, m.ok, m.effect))
  {
    hide StopStep, Alive;
    StopFacts(o, v, m.ok, m.effect);
  }

  lemma EventTruthful(o: Owner, m: Move)
    requires !m.Prepare? && !m.Proceed? && Truthful(o) && (o.prep.Durable? ==> o.child.NoChild?)
    ensures Truthful(EventStep(o, m))
  {
    hide EventStep, SpawnStep;
    if m.Spawn? && o.prep.Durable? {
      SpawnFacts(o, m.result);
      SpawnIs(o, m);
    } else {
      NoteFacts(o, m);
    }
  }

  lemma GroupTruthful(o: Owner, m: Move)
    requires Truthful(o) && OnGroup(m)
    ensures Truthful(GroupStep(o, m))
  {
  }

  ghost predicate AllTruthful(s: State) {
    forall id :: id in s.owners ==> Truthful(s.owners[id])
  }

  lemma ApplyTruthful(s: State, e: Event)
    requires Inv(s) && AllTruthful(s)
    ensures AllTruthful(Apply(s, e))
  {
    hide Step, EffectOf, OwnerInv, Truthful;
    if e.Act? && e.id in s.owners {
      StepTruthful(s.owners[e.id], ViewOf(s.lock, e.id), Removed(s, e.id), e.move);
    } else if e.Arrive? {
      NewcomerTruthful(e.kind);
    }
  }

  lemma NewcomerTruthful(kind: Kind)
    ensures Truthful(Newcomer(kind))
  {
  }

  lemma {:induction false} RunTruthful(s: State, events: seq<Event>)
    requires Inv(s) && AllTruthful(s)
    ensures AllTruthful(Run(s, events))
    decreases |events|
  {
    hide Inv, Apply, AllTruthful;
    if events != [] {
      ApplyKeeps(s, events[0]);
      ApplyTruthful(s, events[0]);
      RunTruthful(Apply(s, events[0]), events[1..]);
    }
  }

  /** In every run an owner that takes its root for exited, or its streams for
      closed, is right about the root, and one that takes its group for absent
      is right about the group. */
  lemma KnowledgeIsTrue(events: seq<Event>, id: nat)
    requires id in Run(EMPTY, events).owners
    ensures var o := Run(EMPTY, events).owners[id];
            && (o.state.rootExited || o.streamsClosed ==> !o.group.root)
            && (o.state.groupAbsent ==> !Alive(o.group))
  {
    hide Run, Evident, OwnerInv;
    EmptyFine();
    RunKeeps(EMPTY, events);
    RunTruthful(EMPTY, events);
    var s := Run(EMPTY, events);
    NothingLaunched(s.owners[id], ViewOf(s.lock, id), Removed(s, id));
    assert Truthful(s.owners[id]);
  }
}

/** Runs of any number of owners on one lock file: what they can never do. */
module CustodyRuns {
  import opened Custody
  import opened CustodyEnds

  /** One removal of the lock file: by whom, what the file was, and the owner as it was. */
  datatype Removal = Removal(owner: nat, lock: Lock, at: Owner)

  datatype State = State(owners: map<nat, Owner>, lock: Lock, removals: seq<Removal>)

  datatype Event = Arrive(id: nat, kind: Kind) | Act(id: nat, move: Move)

  function ViewOf(lock: Lock, id: nat): View {
    match lock
    case Absent => Free
    case Present(creator, whole) => if creator == id then Mine(whole) else Foreign
  }

  /** A write goes through the descriptor, so it reaches the file only while
      the file is still the one created; an unlink removes whatever is there. */
  function Touch(lock: Lock, id: nat, effect: Effect): Lock {
    match effect
    case Untouched => lock
    case Create => Present(id, false)
    case Write => if lock.Present? && lock.creator == id then Present(id, true) else lock
    case Unlink => Absent
  }

  function Apply(s: State, e: Event): State {
    match e
    case Arrive(id, kind) => if id in s.owners then s else s.(owners := s.owners[id := Newcomer(kind)])
    case Act(id, move) =>
      if id !in s.owners then s
      else
        var view := ViewOf(s.lock, id);
        var effect := EffectOf(s.owners[id], view, move);
        State(s.owners[id := Step(s.owners[id], view, move)], Touch(s.lock, id, effect),
              if effect == Unlink && s.lock.Present?
                  then s.removals + [Removal(id, s.lock, s.owners[id])] else s.removals)
  }

  const EMPTY := State(map[], Absent, [])

  function Run(s: State, events: seq<Event>): State
    decreases |events|
  {
    if events == [] then s else Run(Apply(s, events[0]), events[1..])
  }

  predicate Removed(s: State, id: nat) {
    exists k :: 0 <= k < |s.removals| && s.removals[k].owner == id
  }

  ghost predicate Inv(s: State) {
    && (forall id :: id in s.owners ==>
          && OwnerInv(s.owners[id], ViewOf(s.lock, id), Removed(s, id)) && Evident(s.owners[id])
          && EndInv(s.owners[id]) && LetGo(s.owners[id], Removed(s, id)))
    && (s.lock.Present? ==> s.lock.creator in s.owners)
    && (forall k :: 0 <= k < |s.removals| ==>
          && s.removals[k].owner in s.owners && s.removals[k].lock == Present(s.removals[k].owner, true)
          && Removable(s.removals[k].at))
    && (forall j, k :: 0 <= j < k < |s.removals| ==> s.removals[j].owner != s.removals[k].owner)
  }

  // ------------------------------------------------------------ every step

  lemma OthersUnmoved(o: Owner, v: View, w: View, removed: bool)
    requires OwnerInv(o, v, removed) && (v.Mine? || w.Mine? ==> v == w)
    ensures OwnerInv(o, w, removed)
  {
  }

  lemma ViewsAfter(lock: Lock, id: nat, effect: Effect, other: nat)
    requires effect == Create ==> lock.Absent?
    requires effect == Write || effect == Unlink ==> lock.Present? && lock.creator == id
    ensures ViewOf(Touch(lock, id, effect), id) == NextView(ViewOf(lock, id), effect)
    ensures other != id && (ViewOf(lock, other).Mine? || ViewOf(Touch(lock, id, effect), other).Mine?) ==>
              ViewOf(Touch(lock, id, effect), other) == ViewOf(lock, other)
  {
  }

  lemma ApplyKeeps(s: State, e: Event)
    requires Inv(s)
    ensures Inv(Apply(s, e))
  {
    hide OwnerInv, Step, EffectOf, EndInv, LetGo;
    var t := Apply(s, e);
    match e
    case Arrive(id, kind) =>
      if id !in s.owners {
        NewcomerFine(kind, ViewOf(s.lock, id));
      }
    case Act(id, move) =>
      if id in s.owners {
        ActKeeps(s, id, move);
      }
  }

  lemma NewcomerFine(kind: Kind, v: View)
    requires !v.Mine?
    ensures OwnerInv(Newcomer(kind), v, false) && Evident(Newcomer(kind))
    ensures EndInv(Newcomer(kind)) && LetGo(Newcomer(kind), false)
  {
  }

  lemma ActKeeps(s: State, id: nat, move: Move)
    requires Inv(s) && id in s.owners
    ensures Inv(Apply(s, Act(id, move)))
  {
    hide OwnerInv, Step, EffectOf, Removable, Evident, EndInv, LetGo;
    var t := Apply(s, Act(id, move));
    var v := ViewOf(s.lock, id);
    var effect := EffectOf(s.owners[id], v, move);
    StepKeeps(s.owners[id], v, Removed(s, id), move);
    StepEvident(s.owners[id], v, Removed(s, id), move);
    EndKeeps(s.owners[id], v, Removed(s, id), move);
    LetGoKeeps(s.owners[id], v, Removed(s, id), move);
    if effect == Unlink {
      assert t.removals[|s.removals|].owner == id;
      assert Removed(s, id) ==> !v.Mine? by {
        RemovedHasNoLock(s.owners[id], v);
      }
    }
    assert forall k :: 0 <= k < |s.removals| ==> t.removals[k] == s.removals[k];
    forall j | j in t.owners
      ensures OwnerInv(t.owners[j], ViewOf(t.lock, j), Removed(t, j)) && Evident(t.owners[j])
      ensures EndInv(t.owners[j]) && LetGo(t.owners[j], Removed(t, j))
    {
      ViewsAfter(s.lock, id, effect, j);
      assert Removed(t, j) <==> Removed(s, j) || (j == id && effect == Unlink);
      if j != id {
        OthersUnmoved(s.owners[j], ViewOf(s.lock, j), ViewOf(t.lock, j), Removed(s, j));
      }
    }
  }

  lemma RemovedHasNoLock(o: Owner, v: View)
    ensures OwnerInv(o, v, true) ==> !v.Mine? && !Alive(o.group)
  {
  }

  lemma {:induction false} RunKeeps(s: State, events: seq<Event>)
    requires Inv(s)
    ensures Inv(Run(s, events))
    decreases |events|
  {
    if events != [] {
      ApplyKeeps(s, events[0]);
      RunKeeps(Apply(s, events[0]), events[1..]);
    }
  }

  lemma EmptyFine()
    ensures Inv(EMPTY)
  {
  }

  // ----------------------------------------------------------- every run

  /** From the mark of its launch until it removes the lock, an owner's lock
      file is there and whole; and a group that has a member is covered by it. */
  lemma LockCoversLaunch(events: seq<Event>, id: nat)
    requires id in Run(EMPTY, events).owners
    ensures var s := Run(EMPTY, events);
            && (s.owners[id].state.launchAttempted && !Removed(s, id) ==> s.lock == Present(id, true))
            && (Alive(s.owners[id].group) ==> s.lock == Present(id, true) && !Removed(s, id))
  {
    EmptyFine();
    RunKeeps(EMPTY, events);
    CoverOne(Run(EMPTY, events), id);
  }

  lemma CoverOne(s: State, id: nat)
    requires Inv(s) && id in s.owners
    ensures s.owners[id].state.launchAttempted && !Removed(s, id) ==> s.lock == Present(id, true)
    ensures Alive(s.owners[id].group) ==> s.lock == Present(id, true) && !Removed(s, id)
  {
    hide Removed;
    assert OwnerInv(s.owners[id], ViewOf(s.lock, id), Removed(s, id));
  }

  /** Whatever crashes and whatever interleaves, at most one native process
      group has a member. */
  lemma AtMostOneGroup(events: seq<Event>, a: nat, b: nat)
    requires a in Run(EMPTY, events).owners && Alive(Run(EMPTY, events).owners[a].group)
    requires b in Run(EMPTY, events).owners && Alive(Run(EMPTY, events).owners[b].group)
    ensures a == b
  {
    LockCoversLaunch(events, a);
    LockCoversLaunch(events, b);
  }

  /** Every removal was of the remover's own whole lock. At that moment the
      last record said exactly what the owner knew: no launch, or an exited
      root, an absent group and joined streams; and it was true of the child
      and of the group.
      No owner removes twice. */
  lemma RemovalsAreProven(events: seq<Event>)
    ensures var removals := Run(EMPTY, events).removals;
            && (forall k :: 0 <= k < |removals| ==>
                  && removals[k].lock == Present(removals[k].owner, true)
                  && OnRecord(removals[k].at.journal.records, removals[k].at.state)
                  && Terminal(removals[k].at.state) && !Alive(removals[k].at.group)
                  && (removals[k].at.state.launchAttempted <==> removals[k].at.child.Child?))
            && (forall j, k :: 0 <= j < k < |removals| ==> removals[j].owner != removals[k].owner)
  {
    EmptyFine();
    RunKeeps(EMPTY, events);
  }

  /** A stop that is over has closed and released: its journal has not failed
      and is closed, what it knows is on record, its group is empty, and an
      owner that launched has removed its lock. */
  lemma EndedMeansReleased(events: seq<Event>, id: nat)
    requires id in Run(EMPTY, events).owners && Run(EMPTY, events).owners[id].stop.Ended?
    ensures var s := Run(EMPTY, events);
            var o := s.owners[id];
            && EndedWell(o) && !Alive(o.group) && (o.state.launchAttempted ==> Removed(s, id))
  {
    hide Run, Removed, Evident;
    EmptyFine();
    RunKeeps(EMPTY, events);
    assert EndInv(Run(EMPTY, events).owners[id]);
  }

  /** A stop that has begun and rests short of its end has told of recovery;
      the account launcher may also rest closed, with its journal failed or
      its lock not released. */
  lemma RestMeansRecovery(events: seq<Event>, id: nat)
    requires id in Run(EMPTY, events).owners
    requires Run(EMPTY, events).owners[id].closing && Run(EMPTY, events).owners[id].stop.Idle?
    ensures var o := Run(EMPTY, events).owners[id];
            o.state.phase == Recovery || (o.kind == Account && o.state.phase == Closed)
  {
    hide Run, Removed, Evident;
    EmptyFine();
    RunKeeps(EMPTY, events);
    assert EndInv(Run(EMPTY, events).owners[id]);
  }

  /** Every record of every journal tells what must be so in its phase. */
  lemma RecordsTellTheirPhase(events: seq<Event>, id: nat, k: nat)
    requires id in Run(EMPTY, events).owners && k < |Run(EMPTY, events).owners[id].journal.records|
    ensures var o := Run(EMPTY, events).owners[id]; RecordFine(o.kind, o.journal.records[k])
  {
    hide Run, Removed, Evident, RecordFine;
    EmptyFine();
    RunKeeps(EMPTY, events);
    assert EndInv(Run(EMPTY, events).owners[id]);
  }

  /** An owner told to stop before its launch never launches. */
  lemma {:induction false} StoppedNeverLaunches(s: State, events: seq<Event>, id: nat)
    requires Inv(s) && id in s.owners && s.owners[id].closing && !s.owners[id].state.launchAttempted
    ensures var t := Run(s, events);
            id in t.owners && t.owners[id].closing && !t.owners[id].state.launchAttempted && !Alive(t.owners[id].group)
    decreases |events|
  {
    hide Inv, Step, EffectOf;
    if events == [] {
      NotLaunched(s, id);
    } else {
      ApplyKeeps(s, events[0]);
      if events[0].Act? && events[0].id == id {
        StaysStopped(s.owners[id], ViewOf(s.lock, id), events[0].move);
      }
      StoppedNeverLaunches(Apply(s, events[0]), events[1..], id);
    }
  }

  lemma NotLaunched(s: State, id: nat)
    requires Inv(s) && id in s.owners && !s.owners[id].state.launchAttempted
    ensures !Alive(s.owners[id].group)
  {
    hide LockInv, StopInv, EndInv, LetGo;
  }

  /** Whoever has crashed, a group with a member is on record: its owner's
      journal ends with a record of a launch whose group is not known absent. */
  lemma LiveGroupIsOnRecord(events: seq<Event>, id: nat)
    requires id in Run(EMPTY, events).owners && Alive(Run(EMPTY, events).owners[id].group)
    ensures TellsOfLaunch(Run(EMPTY, events).owners[id].journal.records)
  {
    hide OwnerInv, Run;
    EmptyFine();
    RunKeeps(EMPTY, events);
    assert Evident(Run(EMPTY, events).owners[id]);
  }

  /** Once an owner has removed its lock no step of it touches the file
      again, whoever holds it, and its group stays empty. */
  lemma RetryLeavesSuccessor(events: seq<Event>, id: nat, move: Move)
    requires id in Run(EMPTY, events).owners && Removed(Run(EMPTY, events), id)
    ensures var s := Run(EMPTY, events);
            Apply(s, Act(id, move)).lock == s.lock && !Alive(Apply(s, Act(id, move)).owners[id].group)
  {
    hide OwnerInv, Step, EffectOf, Run;
    var s := Run(EMPTY, events);
    EmptyFine();
    RunKeeps(EMPTY, events);
    ApplyKeeps(s, Act(id, move));
    var o, v := s.owners[id], ViewOf(s.lock, id);
    StepKeeps(o, v, true, move);
    RemovedHasNoLock(o, v);
    RemovedNeverCreates(o, v, move);
    RemovedHasNoLock(Step(o, v, move), NextView(v, EffectOf(o, v, move)));
  }

  lemma RemovedNeverCreates(o: Owner, v: View, move: Move)
    requires OwnerInv(o, v, true)
    ensures EffectOf(o, v, move) != Create
  {
  }

  /** A lock left by a crashed owner stays: nobody takes it over. */
  lemma {:induction false} StaleLockStays(s: State, events: seq<Event>, id: nat)
    requires Inv(s) && id in s.owners && s.owners[id].crashed && s.lock.Present? && s.lock.creator == id
    ensures Run(s, events).lock == s.lock
    decreases |events|
  {
    hide OwnerInv, Step, EffectOf;
    if events != [] {
      var e := events[0];
      var t := Apply(s, e);
      ApplyKeeps(s, e);
      if e.Act? && e.id in s.owners {
        var o, v := s.owners[e.id], ViewOf(s.lock, e.id);
        StepKeeps(o, v, Removed(s, e.id), e.move);
        if e.id == id {
          CrashedIsStill(o, v, e.move);
        }
      }
      StaleLockStays(t, events[1..], id);
    }
  }

  lemma CrashedIsStill(o: Owner, v: View, move: Move)
    requires o.crashed
    ensures EffectOf(o, v, move) == Untouched && Step(o, v, move).crashed
  {
  }
}

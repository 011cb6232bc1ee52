/** What the account keeps within its limits: pages of models and login ids. */
module AccountLimits {
  import opened Texts
  import opened Account

  /** Different cursors, fewer than twenty, and different models within the limit. */
  predicate Listing(stage: Stage) {
    stage.AwaitModels? ==>
      && DistinctIds(stage.models) && |stage.models| <= 5_000
      && DistinctIds(stage.cursors) && |stage.cursors| < 20
  }

  ghost predicate PagesInv(s: State) {
    && (s.snapshot.state.SignedIn? ==> DistinctIds(s.snapshot.models) && |s.snapshot.models| <= 5_000)
    && (s.active.Some? ==> Listing(s.active.value.stage))
    && (forall i :: 0 <= i < |s.log| && s.log[i].Page? ==> |s.log[i].models| <= 500)
  }

  /** A step that shows no list and adds no page. */
  predicate NoPages(s: State, t: State) {
    && (t.snapshot.state.SignedIn? ==> t.snapshot == s.snapshot)
    && (t.active.Some? ==>
          !t.active.value.stage.AwaitModels? || t.active.value.stage == AwaitModels([], []) ||
          (s.active.Some? && t.active.value.stage == s.active.value.stage))
    && s.log <= t.log && |t.log| <= |s.log| + 1 && (|t.log| > |s.log| ==> !t.log[|s.log|].Page?)
  }

  lemma NoPagesKeeps(s: State, t: State)
    requires PagesInv(s) && NoPages(s, t)
    ensures PagesInv(t)
  {
    forall i | 0 <= i < |t.log| && t.log[i].Page? ensures |t.log[i].models| <= 500 {
      assert i < |s.log| ==> t.log[i] == s.log[i];
    }
  }

  lemma BeginAdds(s: State, want: Want, cancelled: bool, launch: Launch)
    ensures NoPages(s, BeginStep(s, want, cancelled, launch))
  {
    hide Refuses, Publish, Invalidate;
    PublishAdds(s);
    InvalidateAdds();
  }

  /** Another stage of the operation, or its end, with nothing published. */
  lemma StagedAdds(s: State, t: State)
    requires t.snapshot == s.snapshot && t.log == s.log
    requires t.active == s.active || (t.active.Some? ==> !t.active.value.stage.AwaitModels?)
    ensures NoPages(s, t)
  {
  }

  lemma EntryAdds(s: State, t: Task)
    requires s.active == Some(t)
    ensures NoPages(s, EnterStep(s, t))
  {
    hide Current, NoPages, AtStage;
    AtStageAdds(s, t);
    AtStageAdds(s, t.(dispatched := true));
    StagedAdds(s, EnterStep(s, t));
  }

  lemma AtStageAdds(s: State, t: Task)
    ensures forall stage :: AtStage(s, t, stage).snapshot == s.snapshot && AtStage(s, t, stage).log == s.log
    ensures forall stage :: AtStage(s, t, stage).active == Some(t.(stage := stage))
  {
  }

  lemma SettleAdds(s: State, t: Task)
    requires s.active == Some(t)
    ensures NoPages(s, SettleStep(s, t))
  {
    hide ReportOf, NoPages;
    StagedAdds(s, SettleStep(s, t));
  }

  lemma ReadAdds(s: State, t: Task, matches: bool, answer: AccountAnswer)
    requires s.active == Some(t)
    ensures NoPages(s, AccountStep(s, t, matches, answer))
  {
    hide Current;
  }

  lemma LoginAdds(s: State, t: Task, matches: bool, challenge: Option<Text>)
    requires s.active == Some(t)
    ensures NoPages(s, LoginStep(s, t, matches, challenge))
  {
    hide Current, Publish, Invalidate, AtStage;
    PublishAdds(s);
    InvalidateAdds();
    AtStageAdds(s, t);
    AtStageAdds(s, t.(completed := true));
    var waiting := s.(pendingLogin := challenge,
                      log := s.log + [LoginOpened(t.generation, if challenge.Some? then challenge.value else [])]);
    AtStageAdds(waiting, t);
  }

  lemma InvalidateAdds()
    ensures forall t: State, state, detail, begins ::
              var u := Invalidate(t, state, detail, begins);
              u.snapshot.state == state && u.active == t.active && u.log == t.log + [Bump(begins)]
  {
  }

  /** Publishing changes what is shown, and nothing else. */
  lemma PublishAdds(s: State)
    ensures forall t: State, state, models, detail ::
              var u := Publish(t, state, models, detail);
              u.snapshot.state == state && u.active == t.active && u.log == t.log
  {
  }

  lemma EndAdds(s: State, t: Task, matches: bool, valid: bool)
    requires s.active == Some(t)
    ensures NoPages(s, CancelStep(s, t, matches, valid)) && NoPages(s, LogoutStep(s, t, matches, valid))
  {
    hide Current;
  }

  lemma TaskAdds(s: State, t: Task, m: Move)
    requires s.active == Some(t) && !m.ModelsReply?
    ensures NoPages(s, TaskStep(s, t, m))
  {
    hide EnterStep, AccountStep, LoginStep, CancelStep, LogoutStep, SettleStep, ModelsStep, NoPages;
    EntryAdds(s, t);
    SettleAdds(s, t);
    if m.AccountReply? {
      ReadAdds(s, t, m.matches, m.answer);
    } else if m.LoginReply? {
      LoginAdds(s, t, m.matches, m.challenge);
    } else if m.CancelReply? || m.LogoutReply? {
      EndAdds(s, t, m.matches, m.valid);
    } else {
      assert NoPages(s, AtStage(s, t, Finished(false))) && NoPages(s, s) by {
        EndedAdds(s, t);
      }
    }
  }

  lemma EndedAdds(s: State, t: Task)
    requires s.active == Some(t)
    ensures NoPages(s, AtStage(s, t, Finished(false))) && NoPages(s, s)
  {
  }

  lemma FailureAdds(s: State, r: Report)
    ensures var t := TellFailure(s, r);
            && t == s.(snapshot := t.snapshot) && (t.snapshot != s.snapshot ==> !t.snapshot.state.SignedIn?)
  {
  }

  lemma ResolveAdds(s: State, r: Report)
    ensures NoPages(s, ResolveLogin(s, r)) && ResolveLogin(s, r).active == s.active
  {
  }

  lemma AnswerAdds(s: State)
    ensures NoPages(s, AnswerStep(s))
  {
    hide TellFailure, ResolveLogin;
    if s.reports != [] {
      var rest := s.(reports := s.reports[1..]);
      FailureAdds(rest, s.reports[0]);
      ResolveAdds(TellFailure(rest, s.reports[0]), s.reports[0]);
    }
  }

  lemma NotifyAdds(s: State, matches: bool, notice: Notice)
    ensures NoPages(s, NotifyStep(s, matches, notice))
  {
  }

  lemma CloseAdds(s: State, proven: bool, timedOut: bool)
    ensures NoPages(s, CloseStep(s)) && NoPages(s, EndCloseStep(s, proven)) && NoPages(s, AbortTask(s, timedOut))
  {
    hide ReportOf;
  }

  /** A page of a listing under way is accepted, and then on record, exactly if
      the operation is current, the reply is its own and well formed, the page
      has at most 500 models and all so far at most 5000, none twice. Without
      a cursor it ends the list, which is shown; a cursor goes on, unless it
      came before or is the twentieth. */
  lemma PageExactly(s: State, t: Task, matches: bool, models: seq<Text>, next: Option<Text>, valid: bool)
    requires PagesInv(s) && s.active == Some(t) && t.stage.AwaitModels?
    ensures var u := ModelsStep(s, t, matches, models, next, valid);
            var all := t.stage.models + models;
            var fine := Current(s, t) && matches && valid && |models| <= 500 && |all| <= 5_000 && DistinctIds(all);
            var further := next.Some? && next.value !in t.stage.cursors && |t.stage.cursors| < 19;
            && u.log == (if fine then s.log + [Page(t.generation, models, next.None?)] else s.log)
            && u.snapshot == (if fine && next.None? then Snapshot(SignedIn, s.generation, all, s.pendingLogin, NoDetail)
                              else s.snapshot)
            && u.active == Some(t.(stage := if fine && further then AwaitModels(all, t.stage.cursors + [next.value])
                                            else Finished(fine && next.None?)))
  {
    hide Current, DistinctIds;
  }

  lemma PageKeeps(s: State, t: Task, matches: bool, models: seq<Text>, next: Option<Text>, valid: bool)
    requires PagesInv(s) && s.active == Some(t)
    ensures PagesInv(ModelsStep(s, t, matches, models, next, valid))
  {
    hide Current;
    if t.stage.AwaitModels? {
      PageExactly(s, t, matches, models, next, valid);
    }
  }

  lemma StepPages(s: State, m: Move)
    requires PagesInv(s)
    ensures PagesInv(Step(s, m))
  {
    hide PagesInv, NoPages, BeginStep, AnswerStep, AbortTask, NotifyStep, CloseStep, EndCloseStep, ModelsStep,
      EnterStep, AccountStep, LoginStep, CancelStep, LogoutStep, SettleStep;
    match m
    case Begin(want, cancelled, launch) =>
      BeginAdds(s, want, cancelled, launch);
      NoPagesKeeps(s, Step(s, m));
    case Answer =>
      AnswerAdds(s);
      NoPagesKeeps(s, Step(s, m));
    case Abort =>
      CloseAdds(s, false, false);
      NoPagesKeeps(s, Step(s, m));
    case Timeout =>
      CloseAdds(s, false, true);
      NoPagesKeeps(s, Step(s, m));
    case Notify(matches, notice) =>
      NotifyAdds(s, matches, notice);
      NoPagesKeeps(s, Step(s, m));
    case BeginClose =>
      CloseAdds(s, false, false);
      NoPagesKeeps(s, Step(s, m));
    case EndClose(proven) =>
      CloseAdds(s, proven, false);
      NoPagesKeeps(s, Step(s, m));
    case ModelsReply(matches, models, next, valid) =>
      if s.active.Some? {
        PageKeeps(s, s.active.value, matches, models, next, valid);
      }
    case _ =>
      if s.active.Some? {
        TaskAdds(s, s.active.value, m);
        NoPagesKeeps(s, Step(s, m));
      }
  }

  lemma {:induction false} RunPages(s: State, moves: seq<Move>)
    requires PagesInv(s)
    ensures PagesInv(Run(s, moves))
    decreases |moves|
  {
    hide PagesInv, Step;
    if moves != [] {
      StepPages(s, moves[0]);
      RunPages(Step(s, moves[0]), moves[1..]);
    }
  }

  lemma StartPages()
    ensures PagesInv(START)
  {
  }

  /** In every run the models shown as signed in are at most 5000 and all
      different, no page on record has more than 500, and no listing follows a
      cursor twice or more than nineteen cursors. */
  lemma ListsWithinLimits(moves: seq<Move>)
    ensures var s := Run(START, moves);
            && (s.snapshot.state.SignedIn? ==> DistinctIds(s.snapshot.models) && |s.snapshot.models| <= 5_000)
            && (forall i :: 0 <= i < |s.log| && s.log[i].Page? ==> |s.log[i].models| <= 500)
            && (s.active.Some? && s.active.value.stage.AwaitModels? ==>
                  DistinctIds(s.active.value.stage.cursors) && |s.active.value.stage.cursors| < 20)
  {
    hide Run;
    StartPages();
    RunPages(START, moves);
  }

  // ------------------------------------------------------------ login ids

  /** At most eight early completions, with ids of at most 160 units, and a
      pending login only under an id of 1 to 160. */
  ghost predicate IdsInv(s: State) {
    && |s.early| <= 8 && (forall id :: id in s.early ==> |id| <= 160)
    && (s.pendingLogin.Some? ==> 1 <= |s.pendingLogin.value| <= 160)
  }

  predicate SameIds(s: State, t: State) {
    (t.early == s.early || t.early == map[]) && (t.pendingLogin == s.pendingLogin || t.pendingLogin.None?)
  }

  lemma EntryIds(s: State, t: Task)
    ensures SameIds(s, EnterStep(s, t)) && SameIds(s, SettleStep(s, t)) && SameIds(s, AtStage(s, t, Finished(false)))
  {
    hide Current, ReportOf;
  }

  lemma ReadIds(s: State, t: Task, matches: bool, answer: AccountAnswer)
    ensures SameIds(s, AccountStep(s, t, matches, answer))
  {
    hide Current;
  }

  lemma ModelsIds(s: State, t: Task, matches: bool, models: seq<Text>, next: Option<Text>, valid: bool)
    ensures SameIds(s, ModelsStep(s, t, matches, models, next, valid))
  {
    hide Current, DistinctIds;
  }

  lemma EndIds(s: State, t: Task, matches: bool, valid: bool)
    ensures SameIds(s, CancelStep(s, t, matches, valid)) && SameIds(s, LogoutStep(s, t, matches, valid))
  {
    hide Current;
  }

  lemma LoginIds(s: State, t: Task, matches: bool, challenge: Option<Text>)
    requires IdsInv(s)
    ensures IdsInv(LoginStep(s, t, matches, challenge))
  {
    hide Current;
  }

  lemma TaskIds(s: State, t: Task, m: Move)
    requires IdsInv(s)
    ensures IdsInv(TaskStep(s, t, m))
  {
    hide EnterStep, AccountStep, LoginStep, CancelStep, LogoutStep, SettleStep, ModelsStep, AtStage;
    EntryIds(s, t);
    if m.AccountReply? {
      ReadIds(s, t, m.matches, m.answer);
    } else if m.ModelsReply? {
      ModelsIds(s, t, m.matches, m.models, m.next, m.valid);
    } else if m.LoginReply? {
      LoginIds(s, t, m.matches, m.challenge);
    } else if m.CancelReply? || m.LogoutReply? {
      EndIds(s, t, m.matches, m.valid);
    }
  }

  lemma BeginIds(s: State, want: Want, cancelled: bool, launch: Launch)
    ensures SameIds(s, BeginStep(s, want, cancelled, launch))
  {
    hide Refuses;
  }

  lemma AnswerIds(s: State)
    ensures SameIds(s, AnswerStep(s))
  {
  }

  lemma CloseIds(s: State, proven: bool, timedOut: bool)
    ensures SameIds(s, AbortTask(s, timedOut)) && SameIds(s, CloseStep(s)) && SameIds(s, EndCloseStep(s, proven))
  {
    hide ReportOf;
  }

  lemma OtherIds(s: State, m: Move)
    requires m.Begin? || m.Answer? || m.Abort? || m.Timeout? || m.BeginClose? || m.EndClose?
    ensures SameIds(s, Step(s, m))
  {
    hide BeginStep, AnswerStep, AbortTask, CloseStep, EndCloseStep;
    match m
    case Begin(want, cancelled, launch) => BeginIds(s, want, cancelled, launch);
    case Answer => AnswerIds(s);
    case EndClose(proven) => CloseIds(s, proven, false);
    case _ =>
      CloseIds(s, false, false);
      CloseIds(s, false, true);
  }

  lemma NoticeIds(s: State, matches: bool, notice: Notice)
    requires IdsInv(s)
    ensures IdsInv(NotifyStep(s, matches, notice))
  {
    hide ReportOf;
  }

  lemma StepIds(s: State, m: Move)
    requires IdsInv(s)
    ensures IdsInv(Step(s, m))
  {
    hide BeginStep, AnswerStep, AbortTask, NotifyStep, CloseStep, EndCloseStep, TaskStep;
    if m.Notify? {
      NoticeIds(s, m.matches, m.notice);
    } else if m.Begin? || m.Answer? || m.Abort? || m.Timeout? || m.BeginClose? || m.EndClose? {
      OtherIds(s, m);
    } else if s.active.Some? {
      TaskIds(s, s.active.value, m);
    }
  }

  /** In every run no more than eight completions are kept for a login not yet
      answered, and no login id is empty or longer than 160. */
  lemma {:induction false} IdsWithinLimits(s: State, moves: seq<Move>)
    requires IdsInv(s)
    ensures IdsInv(Run(s, moves))
    decreases |moves|
  {
    hide IdsInv, Step;
    if moves != [] {
      StepIds(s, moves[0]);
      IdsWithinLimits(Step(s, moves[0]), moves[1..]);
    }
  }

  lemma StartIds()
    ensures IdsInv(START)
  {
  }
}

/** The account controller as the program keeps it: each handler changes the
    closure's variables in place, is one step of the model, and leaves a
    snapshot that shows signed in only with its proof. */
module AccountController {
  import opened Texts
  import opened Account

  class Controller {
    var generation: nat
    var pendingLogin: Option<Text>
    var snapshot: Snapshot
    var port: Port
    var loginDispatch: bool
    var unresolvedLogin: bool
    var early: map<Text, bool>
    var active: Option<Task>
    var reports: seq<Report>
    var closing: bool
    var closeTask: CloseTask
    ghost var log: seq<Entry>

    constructor ()
      ensures Valid() && Model() == START
    {
      generation, pendingLogin, snapshot := 1, None, Snapshot(Unchecked, 1, [], None, NoDetail);
      port, loginDispatch, unresolvedLogin, early := NoPort, false, false, map[];
      active, reports, closing, closeTask, log := None, [], false, NotClosing, [];
    }

    ghost function Model(): State
      reads this
    {
      State(generation, pendingLogin, snapshot, port, loginDispatch, unresolvedLogin, early, active, reports,
          closing, closeTask, log)
    }

    ghost predicate Valid()
      reads this
    {
      Inv(Model())
    }

    /** What callers see at any moment: signed in means that an operation began
        the current generation and that the account and all its model pages were
        answered in it, with nothing invalidating them since. */
    method Look() returns (shown: Snapshot)
      requires Valid()
      ensures shown == snapshot && shown.generation == generation
      ensures shown.state.SignedIn? ==> Proof(Era(log), generation, shown.models)
    {
      hide Proof, TaskInv;
      shown := snapshot;
    }

    method Publish(state: Condition, models: seq<Text>, detail: Detail)
      modifies this`snapshot
      ensures Model() == Account.Publish(old(Model()), state, models, detail)
    {
      snapshot := Snapshot(state, generation, models, pendingLogin, detail);
    }

    method Invalidate(state: Condition, detail: Detail, ghost begins: Option<Want>)
      modifies this`generation, this`snapshot, this`log
      ensures Model() == Account.Invalidate(old(Model()), state, detail, begins)
    {
      generation := generation + 1;
      log := log + [Bump(begins)];
      Publish(state, [], detail);
    }

    /** The abort of the active operation, which answers its caller at once. */
    method AbortActive(timedOut: bool)
      modifies this`active, this`reports
      ensures Model() == AbortTask(old(Model()), timedOut)
    {
      if active.None? {
        return;
      }
      var t := active.value;
      if !t.decided {
        reports := reports + [ReportOf(t, false, timedOut)];
      }
      active := Some(t.(aborted := true, decided := true));
    }

    /** The part of `run` up to its first wait. */
    method Run(want: Want, cancelled: bool, launch: Launch) returns (began: bool)
      requires Valid()
      modifies this
      ensures Valid() && Model() == BeginStep(old(Model()), want, cancelled, launch)
      ensures began ==> active.Some? && active.value.generation == generation == old(generation) + 1
    {
      hide Inv;
      BeginKeeps(Model(), want, cancelled, launch);
      if closing || snapshot.state.Closed? || snapshot.state.RecoveryRequired? || cancelled || active.Some? ||
          loginDispatch {
        return false;
      }
      if (want.StartLogin? && pendingLogin.Some?) || (want.CancelLogin? && pendingLogin != Some(want.loginId)) {
        return false;
      }
      Invalidate(Unchecked, NoDetail, Some(want));
      if port.Unusable? || (port.NoPort? && launch.NoLease?) {
        Publish(Unavailable, [], OperationFailed);
        return false;
      }
      if port.NoPort? && launch.FactoryFails? {
        port := Unusable;
        Publish(RecoveryRequired, [], Detail.FactoryFailed);
        return false;
      }
      port := Ready;
      active := Some(Task(want, generation, false, Queued, false, false, false));
      began := true;
    }

    method OnEvent(matches: bool, notice: Notice)
      requires Valid()
      modifies this
      ensures Valid() && Model() == NotifyStep(old(Model()), matches, notice)
    {
      hide Inv;
      NotifyKeeps(Model(), matches, notice);
      if closing || unresolvedLogin || port.NoPort? || !matches {
        return;
      }
      var detail := NoDetail;
      if notice.LoginCompleted? {
        if pendingLogin.None? && loginDispatch {
          if |notice.loginId| <= MAX_LOGIN_ID && |early| < MAX_EARLY {
            early := early[notice.loginId := notice.success];
          }
          return;
        }
        if pendingLogin != Some(notice.loginId) {
          return;
        }
        detail := if notice.success then NoDetail else Detail.LoginFailed;
      } else if notice.Disconnection? {
        detail := Detail.Disconnected;
      }
      pendingLogin := None;
      Invalidate(if notice.Disconnection? then Unavailable else Unchecked, detail, None);
      AbortActive(false);
    }

    method Finish(t: Task, ok: bool)
      modifies this`active
      ensures Model() == AtStage(old(Model()), t, Finished(ok))
    {
      active := Some(t.(stage := Finished(ok)));
    }

    /** A login's response that names its challenge. */
    method TakeChallenge(t: Task, loginId: Text)
      requires active.Some?
      modifies this`active, this`pendingLogin, this`generation, this`snapshot, this`log
      ensures Model() ==
                if loginId in early then
                  Account.Invalidate(AtStage(old(Model()), t.(completed := true), Finished(false)), Unchecked,
                                     if early[loginId] then NoDetail else Detail.LoginFailed, None)
                else
                  Account.Publish(AtStage(old(Model()).(pendingLogin := Some(loginId),
                                                        log := old(log) + [LoginOpened(t.generation, loginId)]),
                                          t, Finished(true)), SigningIn, [], NoDetail)
    {
      hide Account.Publish, Account.Invalidate;
      if loginId in early {
        Finish(t.(completed := true), false);
        Invalidate(Unchecked, if early[loginId] then NoDetail else Detail.LoginFailed, None);
      } else {
        pendingLogin := Some(loginId);
        log := log + [LoginOpened(t.generation, loginId)];
        Finish(t, true);
        Publish(SigningIn, [], NoDetail);
      }
    }

    method OnLoginReply(matches: bool, challenge: Option<Text>)
      requires Valid() && active.Some? && active.value.stage.AwaitLogin?
      modifies this
      ensures Valid() && Model() == LoginStep(old(Model()), old(active.value), matches, challenge)
    {
      hide Inv, Account.Publish, Account.Invalidate;
      LoginKeeps(Model(), active.value, matches, challenge);
      var t := active.value;
      if closing || t.aborted || t.generation != generation || !matches || challenge.None? ||
          !(0 < |challenge.value| <= MAX_LOGIN_ID) {
        Finish(t, false);
      } else {
        TakeChallenge(t, challenge.value);
      }
    }

    /** One page of the loop in `read`. */
    method OnModels(matches: bool, models: seq<Text>, next: Option<Text>, valid: bool)
      requires Valid() && active.Some? && active.value.stage.AwaitModels?
      modifies this
      ensures Valid() && Model() == ModelsStep(old(Model()), old(active.value), matches, models, next, valid)
    {
      hide Inv, DistinctIds, Account.Publish;
      ModelsKeeps(Model(), active.value, matches, models, next, valid);
      var t := active.value;
      var all := t.stage.models + models;
      var usable := valid && |models| <= MAX_PAGE && |all| <= MAX_MODELS && DistinctIds(all);
      if closing || t.aborted || t.generation != generation || !matches || !usable {
        Finish(t, false);
        return;
      }
      TakePage(t, all, models, next);
    }

    method TakePage(t: Task, all: seq<Text>, models: seq<Text>, next: Option<Text>)
      requires t.stage.AwaitModels?
      modifies this
      ensures var logged := old(Model()).(log := old(log) + [Page(t.generation, models, next.None?)]);
              Model() ==
                if next.None? then Account.Publish(AtStage(logged, t, Finished(true)), SignedIn, all, NoDetail)
                else if next.value in t.stage.cursors || |t.stage.cursors| + 1 == MAX_PAGES
                    then AtStage(logged, t, Finished(false))
                else AtStage(logged, t, AwaitModels(all, t.stage.cursors + [next.value]))
    {
      log := log + [Page(t.generation, models, next.None?)];
      if next.None? {
        Finish(t, true);
        Publish(SignedIn, all, NoDetail);
      } else if next.value in t.stage.cursors || |t.stage.cursors| + 1 == MAX_PAGES {
        Finish(t, false);
      } else {
        active := Some(t.(stage := AwaitModels(all, t.stage.cursors + [next.value])));
      }
    }

    /** The catch and finally handlers behind the oldest answer. */
    method RunHandlers()
      requires Valid() && reports != []
      modifies this
      ensures Valid() && Model() == AnswerStep(old(Model()))
    {
      hide Inv, Account.TellFailure, Account.ResolveLogin;
      AnswerKeeps(Model());
      var r := reports[0];
      reports := reports[1..];
      TellFailure(r);
      ResolveLogin(r);
    }

    method TellFailure(r: Report)
      modifies this`snapshot
      ensures Model() == Account.TellFailure(old(Model()), r)
    {
      if !r.ok && r.generation == generation && !closing && !snapshot.state.RecoveryRequired? {
        Publish(Unavailable, [], if r.timedOut then TimeoutDetail else OperationFailed);
      }
    }

    method ResolveLogin(r: Report)
      modifies this
      ensures Model() == Account.ResolveLogin(old(Model()), r)
    {
      hide Account.Publish, Account.Invalidate;
      if r.want.StartLogin? && r.dispatched {
        if !r.ok && !r.completed && !closing {
          unresolvedLogin, pendingLogin := true, None;
          Invalidate(RecoveryRequired, LoginUnresolved, None);
        }
        loginDispatch, early := false, map[];
      }
    }

    /** What every attempt at closing does at once. */
    method Revoke()
      modifies this`active, this`reports, this`pendingLogin, this`generation, this`snapshot, this`log
      ensures Model() == Account.Invalidate(AbortTask(old(Model()), false).(pendingLogin := None), Unchecked, NoDetail,
          None)
    {
      hide Account.Publish, Account.Invalidate, AbortTask;
      AbortActive(false);
      pendingLogin := None;
      Invalidate(Unchecked, NoDetail, None);
    }

    /** Every attempt at closing revokes the operation and the snapshot again. */
    method Close()
      requires Valid()
      modifies this
      ensures Valid() && Model() == CloseStep(old(Model()))
    {
      hide Inv, Account.Publish, Account.Invalidate, AbortTask;
      CloseKeeps(Model(), BeginClose);
      if !closeTask.NotClosing? {
        return;
      }
      closing, closeTask := true, Stopping;
      Revoke();
    }

    method OnStopped(proven: bool)
      requires Valid()
      modifies this
      ensures Valid() && Model() == EndCloseStep(old(Model()), proven)
    {
      hide Inv, Account.Publish;
      CloseKeeps(Model(), EndClose(proven));
      if !closeTask.Stopping? {
        return;
      }
      if port.NoPort? || (port.Ready? && proven) {
        closeTask := Stopped;
        Publish(Closed, [], NoDetail);
      } else {
        closeTask := NotClosing;
        Publish(RecoveryRequired, [], StopUnproven);
      }
    }

    // ---------------------------------------------- the rest of a task

    /** The first step of the task, which no longer begins once it is stale. */
    method Enter()
      requires Valid() && active.Some? && active.value.stage.Queued?
      modifies this
      ensures Valid() && Model() == EnterStep(old(Model()), old(active.value))
    {
      hide Inv;
      EnterKeeps(Model(), active.value);
      var t := active.value;
      if closing || t.aborted || t.generation != generation {
        Finish(t, false);
        return;
      }
      match t.want {
        case CheckAccount => active := Some(t.(stage := AwaitAccount));
        case StartLogin =>
          active := Some(t.(dispatched := true, stage := AwaitLogin));
          loginDispatch := true;
        case CancelLogin(_) => active := Some(t.(stage := AwaitCancel));
        case Logout => active := Some(t.(stage := AwaitLogout));
      }
    }

    method OnAccount(matches: bool, answer: AccountAnswer)
      requires Valid() && active.Some? && active.value.stage.AwaitAccount?
      modifies this
      ensures Valid() && Model() == AccountStep(old(Model()), old(active.value), matches, answer)
    {
      hide Inv, Account.Publish;
      AccountKeeps(Model(), active.value, matches, answer);
      var t := active.value;
      if closing || t.aborted || t.generation != generation || !matches || answer.BadAccount? {
        Finish(t, false);
        return;
      }
      log := log + [AccountRead(t.generation, answer)];
      if answer.Subscriber? {
        active := Some(t.(stage := AwaitModels([], [])));
      } else {
        Finish(t, true);
        if answer.NoAccount? {
          Publish(if pendingLogin.None? then SignedOut else SigningIn, [], NoDetail);
        } else {
          Publish(Unavailable, [], SubscriptionRequired);
        }
      }
    }

    method OnCancelReply(matches: bool, valid: bool)
      requires Valid() && active.Some? && active.value.stage.AwaitCancel?
      modifies this
      ensures Valid() && Model() == CancelStep(old(Model()), old(active.value), matches, valid)
    {
      hide Inv, Account.Publish;
      CancelKeeps(Model(), active.value, matches, valid);
      var t := active.value;
      if closing || t.aborted || t.generation != generation || !matches || !valid {
        Finish(t, false);
      } else {
        pendingLogin := None;
        log := log + [LoginCancelled(t.generation)];
        Finish(t, true);
        Publish(Unchecked, [], NoDetail);
      }
    }

    method OnLogoutReply(matches: bool, valid: bool)
      requires Valid() && active.Some? && active.value.stage.AwaitLogout?
      modifies this
      ensures Valid() && Model() == LogoutStep(old(Model()), old(active.value), matches, valid)
    {
      hide Inv;
      LogoutKeeps(Model(), active.value, matches, valid);
      var t := active.value;
      if closing || t.aborted || t.generation != generation || !matches || !valid {
        Finish(t, false);
      } else {
        log := log + [LoggedOut(t.generation)];
        pendingLogin := None;
        active := Some(t.(stage := AwaitAccount));
      }
    }

    /** The reaction to the end of the task. */
    method OnSettled()
      requires Valid() && active.Some? && active.value.stage.Finished?
      modifies this
      ensures Valid() && Model() == SettleStep(old(Model()), old(active.value))
    {
      hide Inv;
      SettleKeeps(Model(), active.value);
      var t := active.value;
      active := None;
      if !t.decided {
        reports := reports + [ReportOf(t, t.stage.ok, false)];
      }
    }

    /** A caller's abort, or the end of the time an operation has. */
    method OnAbort(timedOut: bool)
      requires Valid()
      modifies this
      ensures Valid() && Model() == AbortTask(old(Model()), timedOut)
    {
      hide Inv;
      AbortKeeps(Model(), timedOut);
      AbortActive(timedOut);
    }
  }
}

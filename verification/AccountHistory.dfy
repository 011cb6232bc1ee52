/** What the account was asked for, by which operation, and what an operation
    answered as successful has achieved, over every run of the controller. */
module AccountHistory {
  import opened Texts
  import opened Account

  function Bumps(log: seq<Entry>): nat {
    if log == [] then 0 else Bumps(log[..|log| - 1]) + if log[|log| - 1].Bump? then 1 else 0
  }

  /** Which entry may follow which: each request was sent by the operation that
      wants it, after the one before it was answered. */
  predicate Follows(before: Entry, e: Entry) {
    match e
    case Bump(_) => true
    case LoggedOut(g) => before == Bump(Some(Logout))
    case AccountRead(g, answer) => !answer.BadAccount? && (before == Bump(Some(CheckAccount)) || before == LoggedOut(g))
    case Page(g, _, _) =>
      before == AccountRead(g, Subscriber) || (before.Page? && before.generation == g && !before.last)
    case LoginOpened(g, _) => before == Bump(Some(StartLogin))
    case LoginCancelled(g) => before.Bump? && before.begins.Some? && before.begins.value.CancelLogin?
  }

  predicate EntryFine(log: seq<Entry>, i: nat)
    requires i < |log|
  {
    log[i].Bump? || (i > 0 && Follows(log[i - 1], log[i]) && log[i].generation == 1 + Bumps(log[..i]))
  }

  predicate LogFine(log: seq<Entry>) {
    forall i :: 0 <= i < |log| ==> EntryFine(log, i)
  }

  /** The task waits for what its operation is about. */
  predicate StageFits(t: Task) {
    match t.stage
    case AwaitAccount => ReadsAccount(t.want)
    case AwaitModels(_, _) => ReadsAccount(t.want)
    case AwaitLogin => t.want.StartLogin?
    case AwaitCancel => t.want.CancelLogin?
    case AwaitLogout => t.want.Logout?
    case _ => true
  }

  predicate LastPageAfter(log: seq<Entry>, generation: nat, i: nat) {
    exists j :: i < j < |log| && log[j].Page? && log[j].last && log[j].generation == generation
  }

  /** From entry `i` on the log shows what the operation is for. */
  predicate AchievedAt(log: seq<Entry>, want: Want, generation: nat, i: nat) {
    var n := |Opening(want, generation)|;
    && i + n < |log| && log[i..i + n] == Opening(want, generation)
    && match want
       case StartLogin => log[i + n].LoginOpened? && log[i + n].generation == generation
       case CancelLogin(_) => log[i + n] == LoginCancelled(generation)
       case _ =>
         && log[i + n].AccountRead? && log[i + n].generation == generation
         && (log[i + n].answer.Subscriber? ==> LastPageAfter(log, generation, i + n))
  }

  ghost predicate Achieved(log: seq<Entry>, want: Want, generation: nat) {
    exists i: nat :: AchievedAt(log, want, generation, i)
  }

  ghost predicate Opened(log: seq<Entry>, loginId: Text) {
    exists i :: 0 <= i < |log| && log[i].LoginOpened? && log[i].loginId == loginId
  }

  ghost predicate TasksFine(s: State) {
    && (s.active.Some? ==> StageFits(s.active.value))
    && (s.active.Some? && s.active.value.stage == Finished(true) ==>
          Achieved(s.log, s.active.value.want, s.active.value.generation))
    && (forall i :: 0 <= i < |s.reports| && s.reports[i].ok ==>
          Achieved(s.log, s.reports[i].want, s.reports[i].generation))
  }

  /** While pages are awaited the last one has not come. */
  predicate PagesGoOn(s: State) {
    s.active.Some? && s.active.value.stage.AwaitModels? && Current(s, s.active.value) ==>
      s.log != [] && !(s.log[|s.log| - 1].Page? && s.log[|s.log| - 1].last)
  }

  ghost predicate HistoryInv(s: State) {
    && s.generation == 1 + Bumps(s.log) && LogFine(s.log) && TasksFine(s) && PagesGoOn(s)
    && (s.pendingLogin.Some? ==> Opened(s.log, s.pendingLogin.value))
  }

  // ---------------------------------------------------------- a longer log

  lemma BumpsGrow(log: seq<Entry>, e: Entry)
    ensures Bumps(log + [e]) == Bumps(log) + if e.Bump? then 1 else 0
  {
    assert (log + [e])[..|log|] == log;
  }

  lemma LogGrows(log: seq<Entry>, e: Entry)
    requires LogFine(log)
    requires e.Bump? || (log != [] && Follows(log[|log| - 1], e) && e.generation == 1 + Bumps(log))
    ensures LogFine(log + [e])
  {
    hide Follows, Bumps;
    var longer := log + [e];
    forall i | 0 <= i < |longer| ensures EntryFine(longer, i) {
      if i < |log| {
        assert EntryFine(log, i);
        assert longer[..i] == log[..i];
      } else {
        assert longer[..i] == log;
      }
    }
  }

  lemma SliceStays(log: seq<Entry>, e: Entry, i: nat, j: nat)
    requires i <= j <= |log|
    ensures (log + [e])[i..j] == log[i..j]
  {
  }

  lemma AchievedGrows(log: seq<Entry>, e: Entry, want: Want, generation: nat)
    requires Achieved(log, want, generation)
    ensures Achieved(log + [e], want, generation)
  {
    var i: nat :| AchievedAt(log, want, generation, i);
    var n := |Opening(want, generation)|;
    var longer := log + [e];
    SliceStays(log, e, i, i + n);
    if log[i + n].AccountRead? && log[i + n].answer.Subscriber? {
      var j :| i + n < j < |log| && log[j].Page? && log[j].last && log[j].generation == generation;
      assert longer[j] == log[j];
    }
    assert AchievedAt(longer, want, generation, i);
  }

  lemma OpenedGrows(log: seq<Entry>, e: Entry, loginId: Text)
    requires Opened(log, loginId) || (e.LoginOpened? && e.loginId == loginId)
    ensures Opened(log + [e], loginId)
  {
    var longer := log + [e];
    if Opened(log, loginId) {
      var i :| 0 <= i < |log| && log[i].LoginOpened? && log[i].loginId == loginId;
      assert longer[i] == log[i];
    } else {
      assert longer[|log|] == e;
    }
  }

  /** The era is the end of the log. */
  lemma {:induction false} EraEnds(log: seq<Entry>)
    ensures |Era(log)| <= |log| && log[|log| - |Era(log)|..] == Era(log)
  {
    if log != [] && !log[|log| - 1].Bump? {
      var front := log[..|log| - 1];
      EraEnds(front);
      assert log == front + [log[|log| - 1]];
    }
  }

  // ------------------------------------------------------------ every step

  /** One more entry; the tasks and answers of before are still what they were. */
  lemma Appended(s: State, t: State, e: Entry)
    requires HistoryInv(s) && t.log == s.log + [e] && PagesGoOn(t)
    requires t.generation == s.generation + if e.Bump? then 1 else 0
    requires e.Bump? || (s.log != [] && Follows(s.log[|s.log| - 1], e) && e.generation == s.generation)
    requires t.active == s.active || (t.active.Some? && StageFits(t.active.value) &&
               (t.active.value.stage == Finished(true) ==>
                  Achieved(t.log, t.active.value.want, t.active.value.generation)))
    requires t.reports == s.reports
    requires t.pendingLogin.Some? ==>
               t.pendingLogin == s.pendingLogin || (e.LoginOpened? && t.pendingLogin == Some(e.loginId))
    ensures HistoryInv(t)
  {
    hide Follows, StageFits, AchievedAt, Achieved, Opened, PagesGoOn;
    BumpsGrow(s.log, e);
    LogGrows(s.log, e);
    if t.active == s.active && s.active.Some? && s.active.value.stage == Finished(true) {
      AchievedGrows(s.log, e, s.active.value.want, s.active.value.generation);
    }
    forall i | 0 <= i < |t.reports| && t.reports[i].ok
      ensures Achieved(t.log, t.reports[i].want, t.reports[i].generation)
    {
      AchievedGrows(s.log, e, t.reports[i].want, t.reports[i].generation);
    }
    if t.pendingLogin.Some? {
      OpenedGrows(s.log, e, t.pendingLogin.value);
    }
  }

  /** The same log; the task is where it may be, and an answer said to be
      successful stands for what its task achieved. */
  lemma SameLog(s: State, t: State)
    requires HistoryInv(s) && t.log == s.log && t.generation == s.generation && PagesGoOn(t)
    requires t.active.Some? ==>
               && StageFits(t.active.value)
               && (t.active.value.stage == Finished(true) ==>
                     Achieved(s.log, t.active.value.want, t.active.value.generation))
    requires forall i :: 0 <= i < |t.reports| && t.reports[i].ok ==>
               Achieved(s.log, t.reports[i].want, t.reports[i].generation)
    requires t.pendingLogin.Some? ==> t.pendingLogin == s.pendingLogin
    ensures HistoryInv(t)
  {
    hide StageFits, Achieved, Opened, LogFine, PagesGoOn;
  }

  lemma InvalidateHistory(s: State, state: Condition, detail: Detail, begins: Option<Want>)
    requires HistoryInv(s) && (s.active.Some? ==> s.active.value.generation <= s.generation)
    ensures HistoryInv(Invalidate(s, state, detail, begins))
  {
    hide HistoryInv, Achieved;
    Appended(s, Invalidate(s, state, detail, begins), Bump(begins));
  }

  lemma AbortHistory(s: State, timedOut: bool)
    requires HistoryInv(s)
    ensures HistoryInv(AbortTask(s, timedOut))
  {
    hide Achieved, LogFine, Opened;
    SameLog(s, AbortTask(s, timedOut));
  }

  lemma BeginHistory(s: State, want: Want, cancelled: bool, launch: Launch)
    requires Inv(s) && HistoryInv(s)
    ensures HistoryInv(BeginStep(s, want, cancelled, launch))
  {
    hide Inv, HistoryInv, Refuses, Achieved;
    if !Refuses(s, want, cancelled) {
      NoneActive(s, want, cancelled);
      InvalidateHistory(s, Unchecked, NoDetail, Some(want));
      var begun := Invalidate(s, Unchecked, NoDetail, Some(want));
      ReportsFine(begun);
      SameLog(begun, BeginStep(s, want, cancelled, launch));
    }
  }

  lemma NoneActive(s: State, want: Want, cancelled: bool)
    requires !Refuses(s, want, cancelled)
    ensures s.active.None?
  {
  }

  lemma ReportsFine(s: State)
    requires HistoryInv(s)
    ensures forall i :: 0 <= i < |s.reports| && s.reports[i].ok ==>
              Achieved(s.log, s.reports[i].want, s.reports[i].generation)
    ensures s.active.Some? ==> StageFits(s.active.value)
    ensures s.active.Some? && s.active.value.stage == Finished(true) ==>
              Achieved(s.log, s.active.value.want, s.active.value.generation)
  {
    hide LogFine, Opened, Achieved;
  }

  /** The first step of a task sends the request its operation is about. */
  lemma EnterMoves(s: State, t: Task)
    requires s.active == Some(t) && t.stage.Queued?
    ensures var next := EnterStep(s, t);
            && next == s.(active := next.active, loginDispatch := next.loginDispatch)
            && next.active.Some? && StageFits(next.active.value)
            && !next.active.value.stage.AwaitModels? && next.active.value.stage != Finished(true)
  {
    hide Current;
    if Current(s, t) && t.want.StartLogin? {
      var dispatched := t.(dispatched := true, stage := AwaitLogin);
      assert EnterStep(s, t) == s.(active := Some(dispatched), loginDispatch := true);
    } else {
      var stage := if !Current(s, t) then Finished(false) else if t.want.CheckAccount? then AwaitAccount
                   else if t.want.Logout? then AwaitLogout else AwaitCancel;
      assert EnterStep(s, t) == s.(active := Some(t.(stage := stage)));
    }
  }

  lemma NotEntered(s: State, t: Task)
    requires !t.stage.Queued?
    ensures EnterStep(s, t) == s
  {
  }

  lemma NotReading(s: State)
    requires s.active.Some? && !s.active.value.stage.AwaitModels?
    ensures PagesGoOn(s)
  {
  }

  lemma EnterHistory(s: State, t: Task)
    requires HistoryInv(s) && s.active == Some(t)
    ensures HistoryInv(EnterStep(s, t))
  {
    hide HistoryInv, Achieved, PagesGoOn, EnterStep, StageFits;
    ReportsFine(s);
    if !t.stage.Queued? {
      NotEntered(s, t);
    } else {
      EnterMoves(s, t);
      NotReading(EnterStep(s, t));
      SameLog(s, EnterStep(s, t));
    }
  }

  lemma FinishHistory(s: State, t: Task)
    requires HistoryInv(s) && s.active.Some?
    ensures HistoryInv(AtStage(s, t, Finished(false)))
  {
    hide HistoryInv, Achieved;
    ReportsFine(s);
    SameLog(s, AtStage(s, t, Finished(false)));
  }

  /** What the log ends with when the era is known. */
  lemma EraLast(s: State)
    requires Era(s.log) != []
    ensures s.log != [] && s.log[|s.log| - 1] == Era(s.log)[|Era(s.log)| - 1]
  {
    EraEnds(s.log);
  }

  /** An entry after an era that is the operation's opening achieves what it is for. */
  lemma AchievesNow(log: seq<Entry>, want: Want, generation: nat, e: Entry)
    requires Era(log) == Opening(want, generation)
    requires match want
             case StartLogin => e.LoginOpened? && e.generation == generation
             case CancelLogin(_) => e == LoginCancelled(generation)
             case _ => e.AccountRead? && e.generation == generation && !e.answer.Subscriber?
    ensures Achieved(log + [e], want, generation)
  {
    EraEnds(log);
    var n := |Opening(want, generation)|;
    var i: nat := |log| - n;
    assert (log + [e])[i..i + n] == log[i..];
    assert AchievedAt(log + [e], want, generation, i);
  }

  lemma ReadHistory(s: State, t: Task, matches: bool, answer: AccountAnswer)
    requires Inv(s) && HistoryInv(s) && s.active == Some(t)
    ensures HistoryInv(AccountStep(s, t, matches, answer))
  {
    hide HistoryInv, Era, Proof, Achieved, Bumps;
    FinishHistory(s, t);
    if t.stage.AwaitAccount? && Current(s, t) && matches && !answer.BadAccount? {
      var e := AccountRead(t.generation, answer);
      EraLast(s);
      if !answer.Subscriber? {
        AchievesNow(s.log, t.want, t.generation, e);
      }
      Appended(s, AccountStep(s, t, matches, answer), e);
    }
  }

  lemma LoginHistory(s: State, t: Task, matches: bool, challenge: Option<Text>)
    requires Inv(s) && HistoryInv(s) && s.active == Some(t)
    ensures HistoryInv(LoginStep(s, t, matches, challenge))
  {
    hide HistoryInv, Era, Proof, Achieved, Bumps, Invalidate;
    FinishHistory(s, t);
    FinishHistory(s, t.(completed := true));
    if t.stage.AwaitLogin? && Current(s, t) && matches && challenge.Some? {
      EraLast(s);
      if challenge.value in s.early {
        var known := AtStage(s, t.(completed := true), Finished(false));
        InvalidateHistory(known, Unchecked, NoDetail, None);
        InvalidateHistory(known, Unchecked, Detail.LoginFailed, None);
      } else if 0 < |challenge.value| <= MAX_LOGIN_ID {
        var e := LoginOpened(t.generation, challenge.value);
        AchievesNow(s.log, t.want, t.generation, e);
        Appended(s, LoginStep(s, t, matches, challenge), e);
      }
    }
  }

  lemma CancelHistory(s: State, t: Task, matches: bool, valid: bool)
    requires Inv(s) && HistoryInv(s) && s.active == Some(t)
    ensures HistoryInv(CancelStep(s, t, matches, valid))
  {
    hide HistoryInv, Era, Proof, Achieved, Bumps;
    FinishHistory(s, t);
    if t.stage.AwaitCancel? && Current(s, t) && matches && valid {
      EraLast(s);
      AchievesNow(s.log, t.want, t.generation, LoginCancelled(t.generation));
      Appended(s, CancelStep(s, t, matches, valid), LoginCancelled(t.generation));
    }
  }

  lemma LogoutHistory(s: State, t: Task, matches: bool, valid: bool)
    requires Inv(s) && HistoryInv(s) && s.active == Some(t)
    ensures HistoryInv(LogoutStep(s, t, matches, valid))
  {
    hide HistoryInv, Era, Proof, Achieved, Bumps;
    FinishHistory(s, t);
    if t.stage.AwaitLogout? && Current(s, t) && matches && valid {
      EraLast(s);
      Appended(s, LogoutStep(s, t, matches, valid), LoggedOut(t.generation));
    }
  }

  /** The last page of a reading completes what the operation is for. */
  lemma LastPageAchieves(log: seq<Entry>, want: Want, generation: nat, models: seq<Text>, more: seq<Text>)
    requires Reading(Era(log), want, generation, models)
    ensures Achieved(log + [Page(generation, more, true)], want, generation)
  {
    EraEnds(log);
    var era, n, page := Era(log), |Opening(want, generation)|, Page(generation, more, true);
    var i: nat := |log| - |era|;
    var longer := log + [page];
    assert log[i..i + n] == era[..n] && log[i + n] == era[n];
    assert longer[i..i + n] == log[i..i + n];
    assert longer[|log|] == page;
    assert LastPageAfter(longer, generation, i + n);
    assert AchievedAt(longer, want, generation, i);
  }

  lemma PageFollows(s: State, t: Task, e: Entry)
    requires Inv(s) && PagesGoOn(s) && s.active == Some(t) && t.stage.AwaitModels? && Current(s, t)
    requires e.Page? && e.generation == t.generation
    ensures s.log != [] && Follows(s.log[|s.log| - 1], e)
  {
    hide Era, Proof, PageModels;
    var era, n := Era(s.log), |Opening(t.want, t.generation)|;
    EraLast(s);
    if |era| > n + 1 {
      assert era[n + 1..][|era| - n - 2] == era[|era| - 1];
    }
  }

  lemma ModelsHistory(s: State, t: Task, matches: bool, models: seq<Text>, next: Option<Text>, valid: bool)
    requires Inv(s) && HistoryInv(s) && s.active == Some(t)
    ensures HistoryInv(ModelsStep(s, t, matches, models, next, valid))
  {
    hide HistoryInv, Era, Proof, Achieved, Bumps, Reading, DistinctIds, Follows;
    FinishHistory(s, t);
    ReportsFine(s);
    var after := ModelsStep(s, t, matches, models, next, valid);
    if after != s && after != AtStage(s, t, Finished(false)) {
      var e := Page(t.generation, models, next.None?);
      assert PagesGoOn(s) by {
        GoingOn(s);
      }
      PageFollows(s, t, e);
      if next.None? {
        LastPageAchieves(s.log, t.want, t.generation, t.stage.models, models);
      }
      Appended(s, after, e);
    }
  }

  lemma GoingOn(s: State)
    requires HistoryInv(s)
    ensures PagesGoOn(s)
  {
  }

  lemma SettleHistory(s: State, t: Task)
    requires HistoryInv(s) && s.active == Some(t)
    ensures HistoryInv(SettleStep(s, t))
  {
    hide HistoryInv, Achieved;
    ReportsFine(s);
    if t.stage.Finished? {
      SameLog(s, SettleStep(s, t));
    }
  }

  lemma AnswerHistory(s: State)
    requires Inv(s) && HistoryInv(s)
    ensures HistoryInv(AnswerStep(s))
  {
    hide Inv, HistoryInv, Achieved, Invalidate;
    if s.reports != [] {
      ReportsFine(s);
      GoingOn(s);
      GenerationsFine(s);
      var r := s.reports[0];
      var told := TellFailure(s.(reports := s.reports[1..]), r);
      SameLog(s, told);
      var unresolved := told.(unresolvedLogin := true, pendingLogin := None);
      SameLog(s, unresolved);
      InvalidateHistory(unresolved, RecoveryRequired, LoginUnresolved, None);
      var closed := Invalidate(unresolved, RecoveryRequired, LoginUnresolved, None);
      FlagsHistory(told);
      FlagsHistory(closed);
    }
  }

  lemma GenerationsFine(s: State)
    requires Inv(s)
    ensures s.active.Some? ==> s.active.value.generation <= s.generation
  {
    hide Era, Proof, TaskInv;
  }

  lemma FlagsHistory(s: State)
    requires HistoryInv(s)
    ensures HistoryInv(s.(loginDispatch := false, early := map[]))
  {
    hide Achieved, LogFine, Opened, StageFits;
  }

  lemma NotifyHistory(s: State, matches: bool, notice: Notice)
    requires Inv(s) && HistoryInv(s)
    ensures HistoryInv(NotifyStep(s, matches, notice))
  {
    hide Inv, HistoryInv, Achieved, Invalidate, AbortTask;
    ReportsFine(s);
    GoingOn(s);
    GenerationsFine(s);
    if notice.LoginCompleted? {
      SameLog(s, s.(early := s.early[notice.loginId := notice.success]));
    }
    var detail := if notice.Disconnection? then Detail.Disconnected
                  else if notice.LoginCompleted? && !notice.success then Detail.LoginFailed else NoDetail;
    var state := if notice.Disconnection? then Unavailable else Unchecked;
    SameLog(s, s.(pendingLogin := None));
    InvalidateHistory(s.(pendingLogin := None), state, detail, None);
    AbortHistory(Invalidate(s.(pendingLogin := None), state, detail, None), false);
  }

  lemma CloseHistory(s: State)
    requires Inv(s) && HistoryInv(s)
    ensures HistoryInv(CloseStep(s))
  {
    hide Inv, HistoryInv, Achieved, Invalidate;
    ReportsFine(s);
    GenerationsFine(s);
    var closing := s.(closing := true, closeTask := Stopping);
    SameLog(s, closing);
    AbortHistory(closing, false);
    var aborted := AbortTask(closing, false);
    ReportsFine(aborted);
    GoingOn(aborted);
    SameLog(aborted, aborted.(pendingLogin := None));
    InvalidateHistory(aborted.(pendingLogin := None), Unchecked, NoDetail, None);
  }

  lemma EndCloseHistory(s: State, proven: bool)
    requires HistoryInv(s)
    ensures HistoryInv(EndCloseStep(s, proven))
  {
    hide HistoryInv, Achieved, StageFits;
    ReportsFine(s);
    GoingOn(s);
    SameLog(s, EndCloseStep(s, proven));
  }

  lemma TaskHistory(s: State, t: Task, m: Move)
    requires Inv(s) && HistoryInv(s) && s.active == Some(t)
    ensures HistoryInv(TaskStep(s, t, m))
  {
    hide Inv, HistoryInv, EnterStep, AccountStep, ModelsStep, LoginStep, CancelStep, LogoutStep, SettleStep;
    if m.Enter? {
      EnterHistory(s, t);
    } else if m.AccountReply? {
      ReadHistory(s, t, m.matches, m.answer);
    } else if m.ModelsReply? {
      ModelsHistory(s, t, m.matches, m.models, m.next, m.valid);
    } else if m.LoginReply? {
      LoginHistory(s, t, m.matches, m.challenge);
    } else if m.CancelReply? {
      CancelHistory(s, t, m.matches, m.valid);
    } else if m.LogoutReply? {
      LogoutHistory(s, t, m.matches, m.valid);
    } else if m.TransportFails? {
      FinishHistory(s, t);
    } else if m.Settle? {
      SettleHistory(s, t);
    }
  }

  lemma StepHistory(s: State, m: Move)
    requires Inv(s) && HistoryInv(s)
    ensures HistoryInv(Step(s, m))
  {
    hide Inv, HistoryInv, BeginStep, AnswerStep, AbortTask, NotifyStep, CloseStep, EndCloseStep, TaskStep;
    match m
    case Begin(want, cancelled, launch) => BeginHistory(s, want, cancelled, launch);
    case Answer => AnswerHistory(s);
    case Abort => AbortHistory(s, false);
    case Timeout => AbortHistory(s, true);
    case Notify(matches, notice) => NotifyHistory(s, matches, notice);
    case BeginClose => CloseHistory(s);
    case EndClose(proven) => EndCloseHistory(s, proven);
    case _ =>
      if s.active.Some? {
        TaskHistory(s, s.active.value, m);
      }
  }

  lemma {:induction false} RunHistory(s: State, moves: seq<Move>)
    requires Inv(s) && HistoryInv(s)
    ensures HistoryInv(Run(s, moves))
    decreases |moves|
  {
    hide Inv, HistoryInv, Step;
    if moves != [] {
      StepKeeps(s, moves[0]);
      StepHistory(s, moves[0]);
      RunHistory(Step(s, moves[0]), moves[1..]);
    }
  }

  /** In every run each request follows the operation that wants it and the
      answer before it: only a logout logs out, and it reads the account only
      then; a check reads the account at once; only a login opens a login. The
      active operation waits for nothing else. */
  lemma RequestsFollowWants(moves: seq<Move>)
    ensures var s := Run(START, moves);
            && LogFine(s.log) && (s.active.Some? ==> StageFits(s.active.value))
            && (s.pendingLogin.Some? ==> Opened(s.log, s.pendingLogin.value))
  {
    hide Run, LogFine, StageFits, Opened, Achieved;
    StartFine();
    RunHistory(START, moves);
  }

  /** A caller is told of success only when the log shows what was wanted: a
      logout has logged out and then read the account, a check has read it, with
      all pages of a subscriber, a login has opened, a cancellation cancelled. */
  lemma SuccessIsAchieved(moves: seq<Move>, i: nat)
    requires i < |Run(START, moves).reports| && Run(START, moves).reports[i].ok
    ensures var s := Run(START, moves); Achieved(s.log, s.reports[i].want, s.reports[i].generation)
  {
    hide Run, LogFine, StageFits, Opened, Achieved;
    StartFine();
    RunHistory(START, moves);
  }

  lemma StartFine()
    ensures Inv(START) && HistoryInv(START)
  {
  }
}

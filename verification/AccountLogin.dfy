/** When a login completion may arrive: before the login's response, after it,
    or in the short time between the two in which it does harm. */
module AccountLogin {
  import opened Texts
  import opened Account

  /** A dispatched login that waits for its response, its caller unanswered. */
  predicate LoginWaiting(s: State, t: Task) {
    && s.active == Some(t) && t.want.StartLogin? && t.stage.AwaitLogin? && Current(s, t)
    && t.dispatched && !t.completed && !t.decided && s.reports == []
    && s.loginDispatch && !s.port.NoPort? && !s.unresolvedLogin && s.pendingLogin.None? &&
        !s.snapshot.state.RecoveryRequired?
  }

  /** A first login gets there in two steps. */
  lemma LoginWaits() returns (s: State, t: Task)
    ensures s == Run(START, [Begin(StartLogin, false, Launches), Enter]) && LoginWaiting(s, t)
  {
    var begun := Step(START, Begin(StartLogin, false, Launches));
    s := Step(begun, Enter);
    t := s.active.value;
    assert [Begin(StartLogin, false, Launches), Enter][1..] == [Enter] && [Enter][1..] == [];
    assert Run(START, [Begin(StartLogin, false, Launches), Enter]) == Run(begun, [Enter]);
    assert Run(begun, [Enter]) == Run(s, []);
  }

  /** The response, the end of the task and the handlers behind it, with the
      completion notice before the `at`-th of them. */
  function Schedule(at: nat, loginId: Text, success: bool): seq<Move>
    requires at <= 3
  {
    var steps := [LoginReply(true, Some(loginId)), Settle, Answer];
    steps[..at] + [Notify(true, LoginCompleted(loginId, success))] + steps[at..]
  }

  lemma RunOne(s: State, m: Move, rest: seq<Move>)
    ensures Run(s, [m] + rest) == Run(Step(s, m), rest)
  {
    hide Step;
    assert ([m] + rest)[1..] == rest;
  }

  lemma RunFour(s: State, a: Move, b: Move, c: Move, d: Move)
    ensures Run(s, [a, b, c, d]) == Step(Step(Step(Step(s, a), b), c), d)
  {
    hide Step, Run;
    RunOne(s, a, [b, c, d]);
    assert [a] + [b, c, d] == [a, b, c, d] && [b] + [c, d] == [b, c, d] && [c] + [d] == [c, d] && [d] + [] == [d];
    RunOne(Step(s, a), b, [c, d]);
    RunOne(Step(Step(s, a), b), c, [d]);
    RunOne(Step(Step(Step(s, a), b), c), d, []);
    RunNone(Step(Step(Step(Step(s, a), b), c), d));
  }

  lemma RunNone(s: State)
    ensures Run(s, []) == s
  {
  }

  // The states along the way, each one step after another.

  function Replied(s: State, t: Task, loginId: Text): State {
    s.(active := Some(t.(stage := Finished(true))), pendingLogin := Some(loginId),
       log := s.log + [LoginOpened(t.generation, loginId)],
       snapshot := Snapshot(SigningIn, s.generation, [], Some(loginId), NoDetail))
  }

  lemma ReplyStep(s: State, t: Task, loginId: Text)
    requires LoginWaiting(s, t) && 0 < |loginId| <= MAX_LOGIN_ID && loginId !in s.early
    ensures Step(s, LoginReply(true, Some(loginId))) == Replied(s, t, loginId)
  {
  }

  function Settled(s: State, t: Task): State {
    s.(active := None, reports := s.reports + [ReportOf(t, true, false)])
  }

  lemma SettleStepOf(s: State, t: Task)
    requires s.active == Some(t) && t.stage == Finished(true) && !t.decided
    ensures Step(s, Settle) == Settled(s, t)
  {
  }

  function Told(s: State): State {
    s.(reports := [], loginDispatch := false, early := map[])
  }

  /** The handlers of a login that is accounted for. */
  lemma AnswerStepOf(s: State, r: Report)
    requires s.reports == [r] && r.want.StartLogin? && r.dispatched &&
        (r.ok || (r.completed && r.generation != s.generation))
    ensures Step(s, Answer) == Told(s)
  {
  }

  function Noticed(s: State, success: bool): State {
    s.(pendingLogin := None, generation := s.generation + 1, log := s.log + [Bump(None)],
       snapshot := Snapshot(Unchecked, s.generation + 1, [], None, if success then NoDetail else Detail.LoginFailed))
  }

  lemma NoticeStep(s: State, loginId: Text, success: bool)
    requires !s.closing && !s.unresolvedLogin && !s.port.NoPort? && s.pendingLogin == Some(loginId) && s.active.None?
    ensures Step(s, Notify(true, LoginCompleted(loginId, success))) == Noticed(s, success)
  {
  }

  /** What the notice leads to once everything has been handled: the account is
      unchecked, one generation on. */
  function Completed(s: State, success: bool): Snapshot {
    Snapshot(Unchecked, s.generation + 1, [], None, if success then NoDetail else Detail.LoginFailed)
  }

  lemma LateNotice(s: State, t: Task, loginId: Text, success: bool)
    requires LoginWaiting(s, t) && 0 < |loginId| <= MAX_LOGIN_ID && loginId !in s.early
    ensures Run(s, Schedule(3, loginId, success)).snapshot == Completed(s, success)
    ensures Run(s, Schedule(2, loginId, success)).snapshot == Completed(s, success)
  {
    hide Step, Run;
    var reply, notice := LoginReply(true, Some(loginId)), Notify(true, LoginCompleted(loginId, success));
    assert Schedule(3, loginId, success) == [reply, Settle, Answer, notice];
    assert Schedule(2, loginId, success) == [reply, Settle, notice, Answer];
    RunFour(s, reply, Settle, Answer, notice);
    RunFour(s, reply, Settle, notice, Answer);
    ReplyStep(s, t, loginId);
    var replied, done := Replied(s, t, loginId), t.(stage := Finished(true));
    SettleStepOf(replied, done);
    var settled := Settled(replied, done);
    assert settled.reports == [ReportOf(done, true, false)];
    AnswerStepOf(settled, ReportOf(done, true, false));
    NoticeStep(Told(settled), loginId, success);
    NoticeStep(settled, loginId, success);
    AnswerStepOf(Noticed(settled, success), ReportOf(done, true, false));
  }

  /** A completion known before the response ends the login with its response. */
  lemma EarlyReply(s: State, t: Task, loginId: Text, success: bool)
    requires LoginWaiting(s, t) && 0 < |loginId| <= MAX_LOGIN_ID && loginId in s.early && s.early[loginId] == success
    ensures Step(s, LoginReply(true, Some(loginId)))
         == Noticed(s, success).(active := Some(t.(completed := true, stage := Finished(false))))
  {
  }

  lemma SettleFailed(s: State, t: Task)
    requires s.active == Some(t) && t.stage == Finished(false) && !t.decided
    ensures Step(s, Settle) == s.(active := None, reports := s.reports + [ReportOf(t, false, false)])
  {
  }

  lemma EarlyStep(s: State, t: Task, loginId: Text, success: bool)
    requires LoginWaiting(s, t) && 0 < |loginId| <= MAX_LOGIN_ID && loginId !in s.early
    ensures Step(s, Notify(true, LoginCompleted(loginId, success)))
         == if |s.early| < MAX_EARLY then s.(early := s.early[loginId := success]) else s
  {
  }

  lemma EarlyNotice(s: State, t: Task, loginId: Text, success: bool)
    requires LoginWaiting(s, t) && 0 < |loginId| <= MAX_LOGIN_ID && loginId !in s.early
    ensures Run(s, Schedule(0, loginId, success)).snapshot
         == if |s.early| < MAX_EARLY then Completed(s, success)
            else Snapshot(SigningIn, s.generation, [], Some(loginId), NoDetail)
  {
    hide Step, Run;
    var reply, notice := LoginReply(true, Some(loginId)), Notify(true, LoginCompleted(loginId, success));
    assert Schedule(0, loginId, success) == [notice, reply, Settle, Answer];
    RunFour(s, notice, reply, Settle, Answer);
    EarlyStep(s, t, loginId, success);
    if |s.early| < MAX_EARLY {
      var noted, done := s.(early := s.early[loginId := success]), t.(completed := true, stage := Finished(false));
      EarlyReply(noted, t, loginId, success);
      var replied := Noticed(noted, success).(active := Some(done));
      SettleFailed(replied, done);
      var settled := replied.(active := None, reports := replied.reports + [ReportOf(done, false, false)]);
      assert settled.reports == [ReportOf(done, false, false)];
      AnswerStepOf(settled, ReportOf(done, false, false));
    } else {
      ReplyStep(s, t, loginId);
      var replied, done := Replied(s, t, loginId), t.(stage := Finished(true));
      SettleStepOf(replied, done);
      assert Settled(replied, done).reports == [ReportOf(done, true, false)];
      AnswerStepOf(Settled(replied, done), ReportOf(done, true, false));
    }
  }

  /** The notice aborts an operation that is over but still active. */
  lemma HarmfulNotice(s: State, t: Task, loginId: Text, success: bool)
    requires !s.closing && !s.unresolvedLogin && !s.port.NoPort?
    requires s.pendingLogin == Some(loginId) && s.active == Some(t) && !t.decided
    ensures Step(s, Notify(true, LoginCompleted(loginId, success)))
         == Noticed(s, success).(active := Some(t.(aborted := true, decided := true)),
                                 reports := s.reports + [ReportOf(t, false, false)])
  {
  }

  lemma SettleAnswered(s: State, t: Task)
    requires s.active == Some(t) && t.stage.Finished? && t.decided
    ensures Step(s, Settle) == s.(active := None)
  {
  }

  /** The handlers of a dispatched login whose caller was told that it was aborted. */
  lemma UnresolvedStep(s: State, r: Report)
    requires s.reports == [r] && r.want.StartLogin? && r.dispatched && !r.ok && !r.completed && !s.closing &&
        r.generation != s.generation
    ensures Step(s, Answer).snapshot == Snapshot(RecoveryRequired, s.generation + 1, [], None, LoginUnresolved)
  {
  }

  /** Between the response and the end of its task the notice aborts a login
      that had succeeded: the account needs recovery, two generations on. */
  lemma NoticeInBetween(s: State, t: Task, loginId: Text, success: bool)
    requires LoginWaiting(s, t) && 0 < |loginId| <= MAX_LOGIN_ID && loginId !in s.early
    ensures Run(s, Schedule(1, loginId, success)).snapshot
         == Snapshot(RecoveryRequired, s.generation + 2, [], None, LoginUnresolved)
  {
    hide Step, Run;
    var reply, notice := LoginReply(true, Some(loginId)), Notify(true, LoginCompleted(loginId, success));
    assert Schedule(1, loginId, success) == [reply, notice, Settle, Answer];
    RunFour(s, reply, notice, Settle, Answer);
    ReplyStep(s, t, loginId);
    var replied, done := Replied(s, t, loginId), t.(stage := Finished(true));
    HarmfulNotice(replied, done, loginId, success);
    var ended := done.(aborted := true, decided := true);
    var harmed := Noticed(replied, success).(active := Some(ended),
        reports := replied.reports + [ReportOf(done, false, false)]);
    assert harmed.reports == [ReportOf(done, false, false)];
    SettleAnswered(harmed, ended);
    UnresolvedStep(harmed.(active := None), ReportOf(done, false, false));
  }

  /** A single matching notice leads to the same final snapshot and generation
      whenever it comes, exactly if it finds the operation over, or still
      without its response and with room among the early completions. */
  lemma CompletionTiming(s: State, t: Task, at: nat, loginId: Text, success: bool)
    requires LoginWaiting(s, t) && at <= 3 && 0 < |loginId| <= MAX_LOGIN_ID && loginId !in s.early
    ensures var met := Run(s, Schedule(at, loginId, success)[..at]);
            Run(s, Schedule(at, loginId, success)).snapshot == Run(s, Schedule(3, loginId, success)).snapshot
            <==> (met.active.Some? ==> met.pendingLogin.None? && |met.early| < MAX_EARLY)
  {
    hide Run, Schedule;
    LateNotice(s, t, loginId, success);
    Meeting(s, t, at, loginId, success);
    if at == 0 {
      EarlyNotice(s, t, loginId, success);
    } else if at == 1 {
      NoticeInBetween(s, t, loginId, success);
    }
  }

  /** What the notice finds. */
  lemma Meeting(s: State, t: Task, at: nat, loginId: Text, success: bool)
    requires LoginWaiting(s, t) && at <= 3 && 0 < |loginId| <= MAX_LOGIN_ID && loginId !in s.early
    ensures var met := Run(s, Schedule(at, loginId, success)[..at]);
            && (at == 0 ==> met == s)
            && (at == 1 ==> met.active.Some? && met.pendingLogin.Some?)
            && (at >= 2 ==> met.active.None?)
  {
    hide Step, Run;
    var reply := LoginReply(true, Some(loginId));
    var steps := [reply, Settle, Answer];
    assert Schedule(at, loginId, success)[..at] == steps[..at];
    RunNone(s);
    if at > 0 {
      var replied, done := Replied(s, t, loginId), t.(stage := Finished(true));
      ReplyStep(s, t, loginId);
      assert steps[..at] == [reply] + steps[1..at];
      RunOne(s, reply, steps[1..at]);
      RunNone(replied);
      if at > 1 {
        var settled := Settled(replied, done);
        SettleStepOf(replied, done);
        assert steps[1..at] == [Settle] + steps[2..at];
        RunOne(replied, Settle, steps[2..at]);
        RunNone(settled);
        if at > 2 {
          assert settled.reports == [ReportOf(done, true, false)];
          AnswerStepOf(settled, ReportOf(done, true, false));
          assert steps[2..at] == [Answer] + [];
          RunOne(settled, Answer, []);
          RunNone(Told(settled));
        }
      }
    }
  }
}

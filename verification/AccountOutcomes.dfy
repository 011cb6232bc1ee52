/** What callers see at the end of each operation: from any account that is at
    rest and open, for every answer the account may give. */
module AccountOutcomes {
  import opened Texts
  import opened Account

  /** Open and at rest: the next operation is let in. */
  predicate AtRest(s: State) {
    && !s.closing && s.active.None? && !s.loginDispatch && s.reports == [] && !s.port.Unusable?
    && !s.snapshot.state.Closed? && !s.snapshot.state.RecoveryRequired?
  }

  predicate Allowed(s: State, want: Want) {
    && AtRest(s) && (want.StartLogin? ==> s.pendingLogin.None?)
    && (want.CancelLogin? ==> s.pendingLogin == Some(want.loginId))
  }

  /** At rest again, one generation on, and showing this. */
  predicate Shows(s: State, t: State, state: Condition, models: seq<Text>, pendingLogin: Option<Text>, detail: Detail) {
    && AtRest(t) && t.generation == s.generation + 1 && t.pendingLogin == pendingLogin
    && t.snapshot == Snapshot(state, t.generation, models, pendingLogin, detail)
  }

  lemma {:induction false} RunSplit(s: State, a: seq<Move>, b: seq<Move>)
    ensures Run(s, a + b) == Run(Run(s, a), b)
    decreases |a|
  {
    hide Step;
    if a == [] {
      assert a + b == b;
    } else {
      assert (a + b)[1..] == a[1..] + b;
      RunSplit(Step(s, a[0]), a[1..], b);
    }
  }

  lemma RunTwo(s: State, a: Move, b: Move)
    ensures Run(s, [a, b]) == Step(Step(s, a), b)
  {
    hide Step;
    assert [a, b][1..] == [b] && [b][1..] == [];
    assert Run(Step(s, a), [b]) == Run(Step(Step(s, a), b), []);
  }

  lemma RunOne(s: State, a: Move)
    ensures Run(s, [a]) == Step(s, a)
  {
    hide Step;
    assert [a][1..] == [];
    assert Run(Step(s, a), []) == Step(s, a);
  }

  // -------------------------------------------------------------- the parts

  /** What the operation waits for once it has sent its request. */
  function FirstWait(want: Want): Stage {
    match want
    case CheckAccount => AwaitAccount
    case StartLogin => AwaitLogin
    case CancelLogin(_) => AwaitCancel
    case Logout => AwaitLogout
  }

  /** The operation under way, its generation just begun. */
  predicate Waiting(s: State, t: State, want: Want, stage: Stage) {
    && t.generation == s.generation + 1 && !t.closing && t.reports == [] && t.port.Ready?
    && t.pendingLogin == s.pendingLogin && t.loginDispatch == want.StartLogin? && t.early == s.early
    && t.unresolvedLogin == s.unresolvedLogin
    && t.snapshot == Snapshot(Unchecked, t.generation, [], s.pendingLogin, NoDetail)
    && t.active == Some(Task(want, t.generation, false, stage, false, want.StartLogin?, false))
  }

  /** Beginning an operation revokes what was shown and sends its first request. */
  lemma Begins(s: State, want: Want) returns (t: State)
    requires Allowed(s, want)
    ensures t == Run(s, [Begin(want, false, Launches), Enter]) && Waiting(s, t, want, FirstWait(want))
  {
    RunTwo(s, Begin(want, false, Launches), Enter);
    var begun := Step(s, Begin(want, false, Launches));
    assert begun.active == Some(Task(want, begun.generation, false, Queued, false, false, false));
    t := Step(begun, Enter);
  }

  /** The operation is over, and its caller hears how. */
  predicate Over(s: State, t: State, want: Want, ok: bool) {
    && t.generation == s.generation + 1 && !t.closing && t.reports == [] && t.port.Ready?
    && t.snapshot.generation == t.generation && !t.snapshot.state.RecoveryRequired? && !t.snapshot.state.Closed?
    && t.loginDispatch == want.StartLogin?
    && t.active == Some(Task(want, t.generation, false, Finished(ok), false, want.StartLogin?, false))
  }

  lemma EndsWell(s: State, t: State, want: Want)
    requires Over(s, t, want, true)
    ensures var u := Run(t, [Settle, Answer]);
            AtRest(u) && u.snapshot == t.snapshot && u.generation == t.generation && u.pendingLogin == t.pendingLogin
  {
    RunTwo(t, Settle, Answer);
    var settled := Step(t, Settle);
    assert settled.reports == [Report(want, t.generation, true, false, want.StartLogin?, false)];
  }

  lemma EndsBadly(s: State, t: State, want: Want)
    requires Over(s, t, want, false)
    ensures var u := Run(t, [Settle, Answer]);
            if want.StartLogin? then
              && u.snapshot == Snapshot(RecoveryRequired, t.generation + 1, [], None, LoginUnresolved)
              && u.unresolvedLogin && u.pendingLogin.None? && u.generation == t.generation + 1
            else
              && AtRest(u) && u.snapshot == Snapshot(Unavailable, t.generation, [], t.pendingLogin, OperationFailed)
              && u.generation == t.generation && u.pendingLogin == t.pendingLogin
  {
    RunTwo(t, Settle, Answer);
    var settled := Step(t, Settle);
    assert settled.reports == [Report(want, t.generation, false, false, want.StartLogin?, false)];
  }

  // ---------------------------------------------------------- the operations

  /** A check without a subscription, and what it shows. */
  lemma CheckShows(s: State, answer: AccountAnswer)
    requires AtRest(s) && !answer.Subscriber? && !answer.BadAccount?
    ensures var u := Run(s, [Begin(CheckAccount, false, Launches), Enter] + [AccountReply(true, answer)] +
                            [Settle, Answer]);
            if answer.NoAccount?
            then Shows(s, u, if s.pendingLogin.None? then SignedOut else SigningIn, [], s.pendingLogin, NoDetail)
            else Shows(s, u, Unavailable, [], s.pendingLogin, SubscriptionRequired)
  {
    hide Run;
    var t := Begins(s, CheckAccount);
    RunSplit(s, [Begin(CheckAccount, false, Launches), Enter], [AccountReply(true, answer)]);
    RunSplit(s, [Begin(CheckAccount, false, Launches), Enter] + [AccountReply(true, answer)], [Settle, Answer]);
    RunOne(t, AccountReply(true, answer));
    EndsWell(s, Step(t, AccountReply(true, answer)), CheckAccount);
  }

  /** A logout logs out, reads the account, and has no login pending any more. */
  lemma LogoutShows(s: State, answer: AccountAnswer)
    requires AtRest(s) && !answer.Subscriber? && !answer.BadAccount?
    ensures var u := Run(s, [Begin(Logout, false, Launches), Enter]
                            + [LogoutReply(true, true), AccountReply(true, answer)] + [Settle, Answer]);
            if answer.NoAccount? then Shows(s, u, SignedOut, [], None, NoDetail)
            else Shows(s, u, Unavailable, [], None, SubscriptionRequired)
  {
    hide Run;
    var t := Begins(s, Logout);
    RunSplit(s, [Begin(Logout, false, Launches), Enter], [LogoutReply(true, true), AccountReply(true, answer)]);
    RunSplit(s, [Begin(Logout, false, Launches), Enter] + [LogoutReply(true, true), AccountReply(true, answer)],
             [Settle, Answer]);
    RunTwo(t, LogoutReply(true, true), AccountReply(true, answer));
    EndsWell(s, Step(Step(t, LogoutReply(true, true)), AccountReply(true, answer)), Logout);
  }

  /** A login that is opened is the one pending. */
  lemma LoginShows(s: State, loginId: Text)
    requires AtRest(s) && s.pendingLogin.None? && 0 < |loginId| <= MAX_LOGIN_ID && loginId !in s.early
    ensures var u := Run(s, [Begin(StartLogin, false, Launches), Enter] + [LoginReply(true, Some(loginId))]
                            + [Settle, Answer]);
            Shows(s, u, SigningIn, [], Some(loginId), NoDetail)
  {
    hide Run;
    var t := Begins(s, StartLogin);
    RunSplit(s, [Begin(StartLogin, false, Launches), Enter], [LoginReply(true, Some(loginId))]);
    RunSplit(s, [Begin(StartLogin, false, Launches), Enter] + [LoginReply(true, Some(loginId))], [Settle, Answer]);
    RunOne(t, LoginReply(true, Some(loginId)));
    EndsWell(s, Step(t, LoginReply(true, Some(loginId))), StartLogin);
  }

  /** A login that is cancelled is pending no more. */
  lemma CancelShows(s: State, loginId: Text)
    requires AtRest(s) && s.pendingLogin == Some(loginId)
    ensures var u := Run(s, [Begin(CancelLogin(loginId), false, Launches), Enter] + [CancelReply(true, true)]
                            + [Settle, Answer]);
            Shows(s, u, Unchecked, [], None, NoDetail)
  {
    hide Run;
    var want := CancelLogin(loginId);
    var t := Begins(s, want);
    RunSplit(s, [Begin(want, false, Launches), Enter], [CancelReply(true, true)]);
    RunSplit(s, [Begin(want, false, Launches), Enter] + [CancelReply(true, true)], [Settle, Answer]);
    RunOne(t, CancelReply(true, true));
    EndsWell(s, Step(t, CancelReply(true, true)), want);
  }

  /** A reply that the operation cannot use. */
  predicate Useless(want: Want, m: Move) {
    || m.TransportFails?
    || (want.CheckAccount? && m.AccountReply? && (!m.matches || m.answer.BadAccount?))
    || (want.StartLogin? && m.LoginReply? && (!m.matches || m.challenge.None? || |m.challenge.value| > MAX_LOGIN_ID))
    || (want.CancelLogin? && m.CancelReply? && (!m.matches || !m.valid))
    || (want.Logout? && m.LogoutReply? && (!m.matches || !m.valid))
  }

  /** An operation that fails shows as unavailable; a login sent and not answered
      closes the account instead. */
  lemma FailureShows(s: State, want: Want, m: Move)
    requires Allowed(s, want) && Useless(want, m)
    ensures var u := Run(s, [Begin(want, false, Launches), Enter] + [m] + [Settle, Answer]);
            if want.StartLogin? then
              u.snapshot == Snapshot(RecoveryRequired, s.generation + 2, [], None, LoginUnresolved) && u.unresolvedLogin
            else Shows(s, u, Unavailable, [], s.pendingLogin, OperationFailed)
  {
    hide Run;
    var t := Begins(s, want);
    RunSplit(s, [Begin(want, false, Launches), Enter], [m]);
    RunSplit(s, [Begin(want, false, Launches), Enter] + [m], [Settle, Answer]);
    RunOne(t, m);
    EndsBadly(s, Step(t, m), want);
  }

  /** An abort or the end of the time is told at once. */
  lemma InterruptionShows(s: State, want: Want, timedOut: bool)
    requires Allowed(s, want) && !want.StartLogin?
    ensures var u := Run(s, [Begin(want, false, Launches), Enter] + [if timedOut then Timeout else Abort, Answer]);
            && u.snapshot == Snapshot(Unavailable, s.generation + 1, [], s.pendingLogin,
                                      if timedOut then TimeoutDetail else OperationFailed)
            && u.active.Some? && u.active.value.aborted && u.reports == []
  {
    hide Run;
    var m := if timedOut then Timeout else Abort;
    var t := Begins(s, want);
    RunSplit(s, [Begin(want, false, Launches), Enter], [m, Answer]);
    RunTwo(t, m, Answer);
    var aborted := Step(t, m);
    assert aborted.reports == [Report(want, t.generation, false, timedOut, false, false)];
  }

  // ------------------------------------------------------------ signing in

  function Concat(pages: seq<seq<Text>>): seq<Text> {
    if pages == [] then [] else pages[0] + Concat(pages[1..])
  }

  /** The pages in order, each but the last with the cursor of the next. */
  function Replies(pages: seq<seq<Text>>, cursors: seq<Text>): seq<Move>
    requires |pages| == |cursors| + 1
  {
    if cursors == [] then [ModelsReply(true, pages[0], None, true)]
    else [ModelsReply(true, pages[0], Some(cursors[0]), true)] + Replies(pages[1..], cursors[1..])
  }

  /** A catalogue within all limits, whose pages do not go in circles. */
  predicate Catalogue(models: seq<Text>, used: seq<Text>, pages: seq<seq<Text>>, cursors: seq<Text>) {
    && |pages| == |cursors| + 1 && |used| + |cursors| < MAX_PAGES
    && (forall i :: 0 <= i < |pages| ==> |pages[i]| <= MAX_PAGE)
    && |models + Concat(pages)| <= MAX_MODELS && DistinctIds(models + Concat(pages))
    && DistinctIds(used + cursors)
  }

  predicate Listing(s: State, t: State, want: Want, models: seq<Text>, used: seq<Text>) {
    && t.generation == s.generation + 1 && !t.closing && t.reports == [] && t.port.Ready? && !t.loginDispatch
    && t.snapshot.generation == t.generation && !t.snapshot.state.RecoveryRequired? && !t.snapshot.state.Closed?
    && !want.StartLogin?
    && t.active == Some(Task(want, t.generation, false, AwaitModels(models, used), false, false, false))
  }

  lemma CatalogueRest(models: seq<Text>, used: seq<Text>, pages: seq<seq<Text>>, cursors: seq<Text>)
    requires Catalogue(models, used, pages, cursors) && cursors != []
    ensures Catalogue(models + pages[0], used + [cursors[0]], pages[1..], cursors[1..])
    ensures DistinctIds(models + pages[0]) && |models + pages[0]| <= MAX_MODELS && cursors[0] !in used
    ensures models + pages[0] + Concat(pages[1..]) == models + Concat(pages)
  {
    var all := models + Concat(pages);
    assert models + pages[0] + Concat(pages[1..]) == all;
    assert (models + pages[0]) == all[..|models + pages[0]|];
    assert used + [cursors[0]] + cursors[1..] == used + cursors;
    assert forall i :: 0 <= i < |used| ==> (used + cursors)[i] == used[i];
    assert (used + cursors)[|used|] == cursors[0];
  }

  lemma {:induction false} PagesShow(s: State, t: State, want: Want, models: seq<Text>, used: seq<Text>,
      pages: seq<seq<Text>>, cursors: seq<Text>)
    requires Listing(s, t, want, models, used) && Catalogue(models, used, pages, cursors)
    ensures var u := Run(t, Replies(pages, cursors));
            && Over(s, u, want, true) && u.pendingLogin == t.pendingLogin
            && u.snapshot == Snapshot(SignedIn, u.generation, models + Concat(pages), t.pendingLogin, NoDetail)
    decreases |cursors|
  {
    hide Run, DistinctIds;
    if cursors == [] {
      assert pages[0] + Concat(pages[1..]) == pages[0];
      RunOne(t, Replies(pages, cursors)[0]);
    } else {
      CatalogueRest(models, used, pages, cursors);
      var first := ModelsReply(true, pages[0], Some(cursors[0]), true);
      var next := Step(t, first);
      RunSplit(t, [first], Replies(pages[1..], cursors[1..]));
      RunOne(t, first);
      PageListed(s, t, want, models, used, pages[0], cursors[0]);
      PagesShow(s, next, want, models + pages[0], used + [cursors[0]], pages[1..], cursors[1..]);
    }
  }

  lemma PageListed(s: State, t: State, want: Want, models: seq<Text>, used: seq<Text>, page: seq<Text>, cursor: Text)
    requires Listing(s, t, want, models, used) && |page| <= MAX_PAGE && |models + page| <= MAX_MODELS
    requires DistinctIds(models + page) && cursor !in used && |used| + 1 < MAX_PAGES
    ensures var next := Step(t, ModelsReply(true, page, Some(cursor), true));
            Listing(s, next, want, models + page, used + [cursor]) && next.pendingLogin == t.pendingLogin
  {
    hide DistinctIds;
  }

  /** A check of a subscriber shows as signed in with exactly the models of the pages. */
  lemma CheckSignsIn(s: State, pages: seq<seq<Text>>, cursors: seq<Text>)
    requires AtRest(s) && Catalogue([], [], pages, cursors)
    ensures var u := Run(s, [Begin(CheckAccount, false, Launches), Enter]
                            + ([AccountReply(true, Subscriber)] + Replies(pages, cursors)) + [Settle, Answer]);
            Shows(s, u, SignedIn, Concat(pages), s.pendingLogin, NoDetail)
  {
    hide Run, DistinctIds;
    var t := Begins(s, CheckAccount);
    var read, replies := AccountReply(true, Subscriber), Replies(pages, cursors);
    RunSplit(s, [Begin(CheckAccount, false, Launches), Enter], [read] + replies);
    RunSplit(s, [Begin(CheckAccount, false, Launches), Enter] + ([read] + replies), [Settle, Answer]);
    RunSplit(t, [read], replies);
    RunOne(t, read);
    PagesShow(s, Step(t, read), CheckAccount, [], [], pages, cursors);
    EndsWell(s, Run(Step(t, read), replies), CheckAccount);
    assert [] + Concat(pages) == Concat(pages);
  }

  // ------------------------------------------------- notices and the close

  /** A notice about the present binding revokes: nothing stays signed in, the
      operation is aborted and its caller answered. A login completion does so
      only for the login that is pending. */
  lemma NoticeRevokes(s: State, matches: bool, notice: Notice)
    ensures var t := Step(s, Notify(matches, notice));
            var heard := !s.closing && !s.unresolvedLogin && !s.port.NoPort? && matches;
            if heard && (notice.LoginCompleted? ==> s.pendingLogin == Some(notice.loginId)) then
              && t.generation == s.generation + 1 && t.pendingLogin.None?
              && t.snapshot == Snapshot(if notice.Disconnection? then Unavailable else Unchecked, t.generation, [],
                                        None,
                                        if notice.Disconnection? then Disconnected
                                        else if notice.LoginCompleted? && !notice.success then LoginFailed
                                        else NoDetail)
              && (s.active.Some? ==> t.active.Some? && t.active.value.aborted && t.active.value.decided)
              && (s.active.Some? && !s.active.value.decided ==>
                    t.reports == s.reports + [Report(s.active.value.want, s.active.value.generation, false, false,
                                                     s.active.value.dispatched, s.active.value.completed)])
            else
              t == s.(early := t.early)
              && (t.early != s.early ==> heard && s.loginDispatch && s.pendingLogin.None? && notice.LoginCompleted?
                                         && t.early == s.early[notice.loginId := notice.success])
  {
  }

  /** A close revokes at once. */
  lemma CloseRevokes(s: State)
    requires s.closeTask.NotClosing?
    ensures var begun := Step(s, BeginClose);
            && begun.closing && begun.generation == s.generation + 1 && begun.pendingLogin.None? && begun.port == s.port
            && begun.closeTask.Stopping? && begun.snapshot == Snapshot(Unchecked, begun.generation, [], None, NoDetail)
            && (s.active.Some? ==> begun.active.Some? && begun.active.value.aborted && begun.active.value.decided)
  {
  }

  /** A close ends closed exactly when there was nothing to stop or the stop of
      the process was proven; otherwise it asks for recovery and may be tried again. */
  lemma CloseShows(s: State, proven: bool)
    requires s.closeTask.NotClosing?
    ensures var t := Run(s, [BeginClose, EndClose(proven)]);
            if s.port.NoPort? || (s.port.Ready? && proven)
            then t.snapshot == Snapshot(Closed, s.generation + 1, [], None, NoDetail) && t.closeTask.Stopped?
            else t.snapshot == Snapshot(RecoveryRequired, s.generation + 1, [], None, StopUnproven) &&
                 t.closeTask.NotClosing?
  {
    hide Run, CloseStep;
    CloseRevokes(s);
    RunTwo(s, BeginClose, EndClose(proven));
  }

  predicate Shut(s: State) {
    && s.closing && s.pendingLogin.None?
    && (s.snapshot.state.Unchecked? || s.snapshot.state.Closed? || s.snapshot.state.RecoveryRequired?)
  }

  lemma ShutStep(s: State, m: Move)
    requires Shut(s)
    ensures Shut(Step(s, m))
  {
    hide DistinctIds;
  }

  /** Once a close has begun no operation is let in, nothing is ever shown but
      what the close shows, and no login is pending. */
  lemma {:induction false} ClosingIsFinal(s: State, moves: seq<Move>)
    requires Shut(s)
    ensures Shut(Run(s, moves))
    ensures forall want, cancelled, launch :: Step(Run(s, moves), Begin(want, cancelled, launch)) == Run(s, moves)
    decreases |moves|
  {
    hide Step;
    if moves != [] {
      ShutStep(s, moves[0]);
      ClosingIsFinal(Step(s, moves[0]), moves[1..]);
    } else {
      NotLetIn(s);
    }
  }

  lemma NotLetIn(s: State)
    requires s.closing
    ensures forall want, cancelled, launch :: Step(s, Begin(want, cancelled, launch)) == s
  {
  }

  /** An operation is let in exactly by an open account with none under way. */
  lemma LetInExactly(s: State, want: Want, cancelled: bool, launch: Launch)
    ensures var t := Step(s, Begin(want, cancelled, launch));
            var open := !s.closing && !s.snapshot.state.Closed? && !s.snapshot.state.RecoveryRequired? && !cancelled
                        && s.active.None? && !s.loginDispatch && (want.StartLogin? ==> s.pendingLogin.None?)
                        && (want.CancelLogin? ==> s.pendingLogin == Some(want.loginId));
            && (!open ==> t == s) && (open ==> t.generation == s.generation + 1 && t.snapshot.models == [])
            && (open && (s.port.Ready? || (s.port.NoPort? && launch.Launches?)) <==> s.active.None? && t.active.Some?)
            && (open && t.active.None? ==> !t.snapshot.state.Unchecked? && !t.snapshot.state.SignedIn?)
  {
  }

  /** What has been aborted is deaf: whatever reply still comes for it, nothing
      is shown, recorded or sent for it any more. */
  predicate Deaf(s: State, next: State) {
    && next.snapshot == s.snapshot && next.log == s.log && next.pendingLogin == s.pendingLogin
    && next.early == s.early && next.generation == s.generation && next.loginDispatch == s.loginDispatch
    && (next.active.Some? ==>
          next.active.value.aborted && (next.active.value.stage.Finished? || next.active == s.active))
  }

  lemma DeafReplies(s: State, t: Task, m: Move)
    requires s.active == Some(t) && t.aborted && !m.Enter? && !m.Settle?
    ensures Deaf(s, TaskStep(s, t, m))
  {
    hide DistinctIds, Publish, Invalidate;
  }

  lemma AbortedIsDeaf(s: State, t: Task, m: Move)
    requires s.active == Some(t) && t.aborted
    requires m.Enter? || m.AccountReply? || m.ModelsReply? || m.LoginReply? || m.CancelReply? || m.LogoutReply? ||
             m.TransportFails? || m.Settle?
    ensures Deaf(s, Step(s, m))
  {
    hide TaskStep, Deaf;
    if m.Enter? || m.Settle? {
      DeafEnds(s, t, m);
    } else {
      DeafReplies(s, t, m);
    }
  }

  lemma DeafEnds(s: State, t: Task, m: Move)
    requires s.active == Some(t) && t.aborted && (m.Enter? || m.Settle?)
    ensures Deaf(s, TaskStep(s, t, m))
  {
    hide ReportOf;
  }
}

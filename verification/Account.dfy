/** The account controller: generations, one operation at a time, notifications
    that may come at any moment, and login completions that may come too early. */
module Account {
  import opened Texts

  const MAX_EARLY := 8
  const MAX_LOGIN_ID := 160
  const MAX_PAGES := 20
  const MAX_PAGE := 500
  const MAX_MODELS := 5_000

  datatype Condition = Unchecked | SignedOut | SigningIn | SignedIn | Unavailable | RecoveryRequired | Closed

  datatype Detail =
    | NoDetail | Disconnected | LoginFailed | FactoryFailed | TimeoutDetail | OperationFailed
    | SubscriptionRequired | LoginUnresolved | StopUnproven

  /** What callers see. */
  datatype Snapshot = Snapshot(
    state: Condition, generation: nat, models: seq<Text>, pendingLogin: Option<Text>, detail: Detail)

  datatype Want = CheckAccount | StartLogin | CancelLogin(loginId: Text) | Logout

  /** How far the operation's own task is. */
  datatype Stage =
    | Queued | AwaitAccount | AwaitModels(models: seq<Text>, cursors: seq<Text>)
    | AwaitLogin | AwaitCancel | AwaitLogout
    | Finished(ok: bool)

  /** The operation in progress. Its caller may have been answered (`decided`)
      while the task itself still waits for the transport. */
  datatype Task = Task(
    want: Want, generation: nat, aborted: bool, stage: Stage, decided: bool, dispatched: bool, completed: bool)

  /** An answer to a caller whose handlers are still to run. */
  datatype Report = Report(want: Want, generation: nat, ok: bool, timedOut: bool, dispatched: bool, completed: bool)

  /** What has been accepted, for the record: which operation, if any, began a
      generation, and what the account was asked for and answered in it. */
  datatype Entry =
    | Bump(begins: Option<Want>)
    | LoginOpened(generation: nat, loginId: Text)
    | LoginCancelled(generation: nat)
    | LoggedOut(generation: nat)
    | AccountRead(generation: nat, answer: AccountAnswer)
    | Page(generation: nat, models: seq<Text>, last: bool)

  /** The way to the native process: none before a lease is held, and for good
      unusable when the factory failed with the lease already held. */
  datatype Port = NoPort | Unusable | Ready

  /** The attempt at closing that callers share; an unproven one is given up. */
  datatype CloseTask = NotClosing | Stopping | Stopped

  datatype State = State(
    generation: nat, pendingLogin: Option<Text>, snapshot: Snapshot, port: Port,
    loginDispatch: bool, unresolvedLogin: bool, early: map<Text, bool>,
    active: Option<Task>, reports: seq<Report>, closing: bool, closeTask: CloseTask, log: seq<Entry>)

  datatype Notice = AccountUpdated | LoginCompleted(loginId: Text, success: bool) | Disconnection

  datatype AccountAnswer = NotRequired | NoAccount | OtherAccount | Subscriber | BadAccount

  datatype Launch = Launches | NoLease | FactoryFails

  datatype Move =
    | Begin(want: Want, cancelled: bool, launch: Launch)
    | Enter
    | AccountReply(matches: bool, answer: AccountAnswer)
    | ModelsReply(matches: bool, models: seq<Text>, next: Option<Text>, valid: bool)
    | LoginReply(matches: bool, challenge: Option<Text>)
    | CancelReply(matches: bool, valid: bool)
    | LogoutReply(matches: bool, valid: bool)
    | TransportFails
    | Settle
    | Abort
    | Timeout
    | Answer
    | Notify(matches: bool, notice: Notice)
    | BeginClose
    | EndClose(proven: bool)

  const START :=
    State(1, None, Snapshot(Unchecked, 1, [], None, NoDetail), NoPort, false, false, map[], None, [], false,
          NotClosing, [])

  // ------------------------------------------------------------ snapshots

  function Publish(s: State, state: Condition, models: seq<Text>, detail: Detail): State {
    s.(snapshot := Snapshot(state, s.generation, models, s.pendingLogin, detail))
  }

  function Invalidate(s: State, state: Condition, detail: Detail, begins: Option<Want>): State {
    Publish(s.(generation := s.generation + 1, log := s.log + [Bump(begins)]), state, [], detail)
  }

  // ----------------------------------------------------------- operations

  predicate Refuses(s: State, want: Want, cancelled: bool) {
    || s.closing || s.snapshot.state.Closed? || s.snapshot.state.RecoveryRequired? || cancelled
    || s.active.Some? || s.loginDispatch
    || (want.StartLogin? && s.pendingLogin.Some?)
    || (want.CancelLogin? && s.pendingLogin != Some(want.loginId))
  }

  function BeginStep(s: State, want: Want, cancelled: bool, launch: Launch): State {
    if Refuses(s, want, cancelled) then s
    else
      var begun := Invalidate(s, Unchecked, NoDetail, Some(want));
      if s.port.Unusable? || (s.port.NoPort? && launch.NoLease?) then Publish(begun, Unavailable, [], OperationFailed)
      else if s.port.NoPort? && launch.FactoryFails? then
        Publish(begun.(port := Unusable), RecoveryRequired, [], Detail.FactoryFailed)
      else
        begun.(port := Ready, active := Some(Task(want, begun.generation, false, Queued, false, false, false)))
  }

  /** The request is still the one the account is at. */
  predicate Current(s: State, t: Task) {
    !s.closing && !t.aborted && t.generation == s.generation
  }

  function AtStage(s: State, t: Task, stage: Stage): State {
    s.(active := Some(t.(stage := stage)))
  }

  function EnterStep(s: State, t: Task): State {
    if !t.stage.Queued? then s
    else if !Current(s, t) then AtStage(s, t, Finished(false))
    else
      match t.want
      case CheckAccount => AtStage(s, t, AwaitAccount)
      case StartLogin => AtStage(s, t.(dispatched := true), AwaitLogin).(loginDispatch := true)
      case CancelLogin(_) => AtStage(s, t, AwaitCancel)
      case Logout => AtStage(s, t, AwaitLogout)
  }

  function AccountStep(s: State, t: Task, matches: bool, answer: AccountAnswer): State {
    if !t.stage.AwaitAccount? then s
    else if !Current(s, t) || !matches || answer.BadAccount? then AtStage(s, t, Finished(false))
    else
      match answer
      case NoAccount =>
        Publish(AtStage(Read(s, t, answer), t, Finished(true)),
                if s.pendingLogin.None? then SignedOut else SigningIn, [], NoDetail)
      case Subscriber => AtStage(Read(s, t, answer), t, AwaitModels([], []))
      case _ => Publish(AtStage(Read(s, t, answer), t, Finished(true)), Unavailable, [], SubscriptionRequired)
  }

  function Read(s: State, t: Task, answer: AccountAnswer): State {
    s.(log := s.log + [AccountRead(t.generation, answer)])
  }

  predicate DistinctIds(models: seq<Text>) {
    forall i, j :: 0 <= i < j < |models| ==> models[i] != models[j]
  }

  function ModelsStep(s: State, t: Task, matches: bool, models: seq<Text>, next: Option<Text>, valid: bool): State {
    if !t.stage.AwaitModels? then s
    else
      var all := t.stage.models + models;
      if !Current(s, t) || !matches || !valid || |models| > MAX_PAGE || |all| > MAX_MODELS || !DistinctIds(all)
          then AtStage(s, t, Finished(false))
      else
        var logged := s.(log := s.log + [Page(t.generation, models, next.None?)]);
        if next.None? then Publish(AtStage(logged, t, Finished(true)), SignedIn, all, NoDetail)
        else if next.value in t.stage.cursors || |t.stage.cursors| + 1 == MAX_PAGES
            then AtStage(logged, t, Finished(false))
        else AtStage(logged, t, AwaitModels(all, t.stage.cursors + [next.value]))
  }

  function LoginStep(s: State, t: Task, matches: bool, challenge: Option<Text>): State {
    if !t.stage.AwaitLogin? then s
    else if !Current(s, t) || !matches || challenge.None? || !(0 < |challenge.value| <= MAX_LOGIN_ID)
        then AtStage(s, t, Finished(false))
    else if challenge.value in s.early then
      Invalidate(AtStage(s, t.(completed := true), Finished(false)), Unchecked,
                 if s.early[challenge.value] then NoDetail else Detail.LoginFailed, None)
    else
      var waiting := s.(pendingLogin := challenge, log := s.log + [LoginOpened(t.generation, challenge.value)]);
      Publish(AtStage(waiting, t, Finished(true)), SigningIn, [], NoDetail)
  }

  function CancelStep(s: State, t: Task, matches: bool, valid: bool): State {
    if !t.stage.AwaitCancel? then s
    else if !Current(s, t) || !matches || !valid then AtStage(s, t, Finished(false))
    else
      var cancelled := s.(pendingLogin := None, log := s.log + [LoginCancelled(t.generation)]);
      Publish(AtStage(cancelled, t, Finished(true)), Unchecked, [], NoDetail)
  }

  function LogoutStep(s: State, t: Task, matches: bool, valid: bool): State {
    if !t.stage.AwaitLogout? then s
    else if !Current(s, t) || !matches || !valid then AtStage(s, t, Finished(false))
    else AtStage(s, t, AwaitAccount).(pendingLogin := None, log := s.log + [LoggedOut(t.generation)])
  }

  function ReportOf(t: Task, ok: bool, timedOut: bool): Report {
    Report(t.want, t.generation, ok, timedOut, t.dispatched, t.completed)
  }

  /** The task is over: nothing is active any more, and a caller not yet
      answered gets its outcome. */
  function SettleStep(s: State, t: Task): State {
    if !t.stage.Finished? then s
    else s.(active := None, reports := if t.decided then s.reports else s.reports + [ReportOf(t, t.stage.ok, false)])
  }

  /** Aborting answers the caller at once; the task learns of it at its next reply. */
  function AbortTask(s: State, timedOut: bool): State {
    if s.active.None? then s
    else
      var t := s.active.value;
      s.(active := Some(t.(aborted := true, decided := true)),
         reports := if t.decided then s.reports else s.reports + [ReportOf(t, false, timedOut)])
  }

  /** A failure is published while its generation is current. */
  function TellFailure(s: State, r: Report): State {
    if !r.ok && r.generation == s.generation && !s.closing && !s.snapshot.state.RecoveryRequired?
    then Publish(s, Unavailable, [], if r.timedOut then TimeoutDetail else OperationFailed)
    else s
  }

  /** A dispatched login whose outcome is unknown closes the account. */
  function ResolveLogin(s: State, r: Report): State {
    if !r.want.StartLogin? || !r.dispatched then s
    else
      var resolved :=
        if !r.ok && !r.completed && !s.closing
        then Invalidate(s.(unresolvedLogin := true, pendingLogin := None), RecoveryRequired, LoginUnresolved, None)
        else s;
      resolved.(loginDispatch := false, early := map[])
  }

  /** The handlers behind the oldest answer. */
  function AnswerStep(s: State): State {
    if s.reports == [] then s
    else ResolveLogin(TellFailure(s.(reports := s.reports[1..]), s.reports[0]), s.reports[0])
  }

  // -------------------------------------------------------- notifications

  function NotifyStep(s: State, matches: bool, notice: Notice): State {
    if s.closing || s.unresolvedLogin || s.port.NoPort? || !matches then s
    else if notice.LoginCompleted? && s.pendingLogin.None? && s.loginDispatch then
      if |notice.loginId| <= MAX_LOGIN_ID && |s.early| < MAX_EARLY
      then s.(early := s.early[notice.loginId := notice.success])
      else s
    else if notice.LoginCompleted? && s.pendingLogin != Some(notice.loginId) then s
    else
      var detail := if notice.Disconnection? then Detail.Disconnected
                    else if notice.LoginCompleted? && !notice.success then Detail.LoginFailed else NoDetail;
      var state := if notice.Disconnection? then Unavailable else Unchecked;
      AbortTask(Invalidate(s.(pendingLogin := None), state, detail, None), false)
  }

  /** Every attempt revokes the operation and the snapshot again. */
  function CloseStep(s: State): State {
    if !s.closeTask.NotClosing? then s
    else
      var aborted := AbortTask(s.(closing := true, closeTask := Stopping), false);
      Invalidate(aborted.(pendingLogin := None), Unchecked, NoDetail, None)
  }

  /** Without a lease there is nothing to stop; without a transport nothing can be proven. */
  function EndCloseStep(s: State, proven: bool): State {
    if !s.closeTask.Stopping? then s
    else if s.port.NoPort? || (s.port.Ready? && proven) then Publish(s.(closeTask := Stopped), Closed, [], NoDetail)
    else Publish(s.(closeTask := NotClosing), RecoveryRequired, [], StopUnproven)
  }

  function Step(s: State, m: Move): State {
    match m
    case Begin(want, cancelled, launch) => BeginStep(s, want, cancelled, launch)
    case Answer => AnswerStep(s)
    case Abort => AbortTask(s, false)
    case Timeout => AbortTask(s, true)
    case Notify(matches, notice) => NotifyStep(s, matches, notice)
    case BeginClose => CloseStep(s)
    case EndClose(proven) => EndCloseStep(s, proven)
    case _ => if s.active.None? then s else TaskStep(s, s.active.value, m)
  }

  function TaskStep(s: State, t: Task, m: Move): State {
    if m.Enter? then EnterStep(s, t)
    else if m.AccountReply? then AccountStep(s, t, m.matches, m.answer)
    else if m.ModelsReply? then ModelsStep(s, t, m.matches, m.models, m.next, m.valid)
    else if m.LoginReply? then LoginStep(s, t, m.matches, m.challenge)
    else if m.CancelReply? then CancelStep(s, t, m.matches, m.valid)
    else if m.LogoutReply? then LogoutStep(s, t, m.matches, m.valid)
    else if m.TransportFails? && !t.stage.Queued? && !t.stage.Finished? then AtStage(s, t, Finished(false))
    else if m.Settle? then SettleStep(s, t)
    else s
  }

  function Run(s: State, moves: seq<Move>): State
    decreases |moves|
  {
    if moves == [] then s else Run(Step(s, moves[0]), moves[1..])
  }

  // ---------------------------------------------------------- invariant

  /** The log since the generation last changed, the change included. */
  function Era(log: seq<Entry>): seq<Entry> {
    if log == [] then []
    else if log[|log| - 1].Bump? then [log[|log| - 1]]
    else Era(log[..|log| - 1]) + [log[|log| - 1]]
  }

  function PageModels(pages: seq<Entry>): seq<Text> {
    if pages == [] then []
    else PageModels(pages[..|pages| - 1]) + if pages[|pages| - 1].Page? then pages[|pages| - 1].models else []
  }

  predicate IsPages(pages: seq<Entry>, generation: nat) {
    forall i :: 0 <= i < |pages| ==> pages[i].Page? && pages[i].generation == generation
  }

  /** Checks read the account, and so do logouts after they have logged out. */
  predicate ReadsAccount(want: Want) {
    want.CheckAccount? || want.Logout?
  }

  /** How an operation opens its generation before it reads the account: a logout,
      and only a logout, has logged out. */
  function Opening(want: Want, generation: nat): seq<Entry> {
    [Bump(Some(want))] + if want.Logout? then [LoggedOut(generation)] else []
  }

  /** ... and has since found a subscriber and read these models. */
  predicate Reading(era: seq<Entry>, want: Want, generation: nat, models: seq<Text>) {
    var n := |Opening(want, generation)|;
    && ReadsAccount(want) && |era| > n && era[..n] == Opening(want, generation)
    && era[n] == AccountRead(generation, Subscriber)
    && IsPages(era[n + 1..], generation) && PageModels(era[n + 1..]) == models
  }

  /** What being signed in rests on: a check or a logout began this generation,
      the account and every model page were answered at it, the last page too,
      and nothing has changed the generation since. */
  predicate Proof(era: seq<Entry>, generation: nat, models: seq<Text>) {
    && era != [] && era[0].Bump? && era[0].begins.Some? && Reading(era, era[0].begins.value, generation, models)
    && era[|era| - 1].Page? && era[|era| - 1].last
  }

  predicate TaskInv(t: Task, era: seq<Entry>, signedIn: bool) {
    match t.stage
    case Queued => era == [Bump(Some(t.want))] && !signedIn
    case AwaitAccount => ReadsAccount(t.want) && era == Opening(t.want, t.generation) && !signedIn
    case AwaitModels(models, cursors) => Reading(era, t.want, t.generation, models) && !signedIn
    case AwaitLogin => t.want.StartLogin? && era == [Bump(Some(t.want))] && !signedIn
    case AwaitCancel => t.want.CancelLogin? && era == [Bump(Some(t.want))] && !signedIn
    case AwaitLogout => t.want.Logout? && era == [Bump(Some(t.want))] && !signedIn
    case Finished(_) => true
  }

  predicate Inv(s: State) {
    && s.snapshot.generation == s.generation
    && (s.snapshot.state.SignedIn? ==> Proof(Era(s.log), s.generation, s.snapshot.models))
    && (s.active.Some? ==> s.active.value.generation <= s.generation)
    && (s.active.Some? && Current(s, s.active.value) ==>
        TaskInv(s.active.value, Era(s.log), s.snapshot.state.SignedIn?))
    && (forall i :: 0 <= i < |s.reports| ==> s.reports[i].generation <= s.generation)
  }

  lemma EraGrows(log: seq<Entry>, e: Entry)
    ensures Era(log + [e]) == if e.Bump? then [e] else Era(log) + [e]
  {
    assert (log + [e])[..|log|] == log;
  }

  lemma ReadingStarts(want: Want, generation: nat)
    requires ReadsAccount(want)
    ensures Reading(Opening(want, generation) + [AccountRead(generation, Subscriber)], want, generation, [])
  {
    var era := Opening(want, generation);
    assert (era + [AccountRead(generation, Subscriber)])[|era| + 1..] == [];
  }

  lemma PagesGrow(pages: seq<Entry>, generation: nat, more: seq<Text>, last: bool)
    requires IsPages(pages, generation)
    ensures IsPages(pages + [Page(generation, more, last)], generation)
    ensures PageModels(pages + [Page(generation, more, last)]) == PageModels(pages) + more
  {
    assert (pages + [Page(generation, more, last)])[..|pages|] == pages;
  }

  lemma ReadingGrows(era: seq<Entry>, want: Want, generation: nat, models: seq<Text>, more: seq<Text>, last: bool)
    requires Reading(era, want, generation, models)
    ensures Reading(era + [Page(generation, more, last)], want, generation, models + more)
  {
    hide IsPages, PageModels;
    var n, page := |Opening(want, generation)|, Page(generation, more, last);
    assert (era + [page])[n + 1..] == era[n + 1..] + [page];
    assert (era + [page])[..n] == era[..n];
    PagesGrow(era[n + 1..], generation, more, last);
  }

  /** No operation and no answer is ahead of the generation. */
  predicate Behind(s: State) {
    && (s.active.Some? ==> s.active.value.generation <= s.generation)
    && (forall i :: 0 <= i < |s.reports| ==> s.reports[i].generation <= s.generation)
  }

  /** Flags that the invariant does not speak of. */
  lemma FlagsKeep(s: State, t: State)
    requires Inv(s)
    requires t == s.(pendingLogin := t.pendingLogin, port := t.port, loginDispatch := t.loginDispatch,
                     unresolvedLogin := t.unresolvedLogin, early := t.early, closeTask := t.closeTask)
    ensures Inv(t) && Behind(t)
  {
    hide Era, Proof, TaskInv;
  }

  lemma PublishKeeps(s: State, state: Condition, models: seq<Text>, detail: Detail)
    requires Inv(s) && !state.SignedIn?
    ensures Inv(Publish(s, state, models, detail))
  {
    hide Era, Proof, Reading;
  }

  lemma FinishKeeps(s: State, t: Task, ok: bool)
    requires Inv(s) && s.active.Some? && s.active.value.generation == t.generation
    ensures Inv(AtStage(s, t, Finished(ok)))
  {
    hide Era, Proof;
  }

  lemma InvalidateKeeps(s: State, state: Condition, detail: Detail, begins: Option<Want>)
    requires Behind(s) && !state.SignedIn?
    ensures Inv(Invalidate(s, state, detail, begins))
    ensures Era(Invalidate(s, state, detail, begins).log) == [Bump(begins)]
  {
    EraGrows(s.log, Bump(begins));
  }

  lemma BegunKeeps(s: State, begun: State, t: Task)
    requires begun == Invalidate(s, Unchecked, NoDetail, Some(t.want)) && Inv(begun)
    requires Era(begun.log) == [Bump(Some(t.want))] && t.stage.Queued? && t.generation == begun.generation
    ensures Inv(begun.(port := Ready, active := Some(t)))
  {
    hide Era, Proof;
  }

  /** The task moves on with what its new stage asks for already there. */
  lemma StageKeeps(s: State, t: Task, stage: Stage)
    requires Inv(s) && s.active.Some? && s.active.value.generation == t.generation
    requires TaskInv(t.(stage := stage), Era(s.log), s.snapshot.state.SignedIn?)
    ensures Inv(AtStage(s, t, stage))
  {
    hide Era, Proof, TaskInv;
  }

  lemma BeginKeeps(s: State, want: Want, cancelled: bool, launch: Launch)
    requires Inv(s)
    ensures Inv(BeginStep(s, want, cancelled, launch))
  {
    hide Inv, Refuses, Publish, Invalidate;
    FlagsKeep(s, s);
    var begun := Invalidate(s, Unchecked, NoDetail, Some(want));
    InvalidateKeeps(s, Unchecked, NoDetail, Some(want));
    PublishKeeps(begun, Unavailable, [], OperationFailed);
    FlagsKeep(begun, begun.(port := Unusable));
    PublishKeeps(begun.(port := Unusable), RecoveryRequired, [], Detail.FactoryFailed);
    if !Refuses(s, want, cancelled) {
      var t := Task(want, begun.generation, false, Queued, false, false, false);
      BegunKeeps(s, begun, t);
    }
  }

  lemma EnterKeeps(s: State, t: Task)
    requires Inv(s) && s.active == Some(t)
    ensures Inv(EnterStep(s, t))
  {
    hide Inv, AtStage;
    if t.stage.Queued? {
      if Current(s, t) {
        EnterCurrent(s, t);
      } else {
        FinishKeeps(s, t, false);
      }
    }
  }

  lemma EnterCurrent(s: State, t: Task)
    requires Inv(s) && s.active == Some(t) && t.stage.Queued? && Current(s, t)
    ensures Inv(EnterStep(s, t))
  {
    hide Era, Proof, Reading;
    match t.want
    case CheckAccount => StageKeeps(s, t, AwaitAccount);
    case StartLogin =>
      StageKeeps(s, t.(dispatched := true), AwaitLogin);
      var dispatched := AtStage(s, t.(dispatched := true), AwaitLogin);
      FlagsKeep(dispatched, dispatched.(loginDispatch := true));
    case CancelLogin(_) => StageKeeps(s, t, AwaitCancel);
    case Logout => StageKeeps(s, t, AwaitLogout);
  }

  lemma NotSignedIn(s: State, t: Task)
    requires Inv(s) && s.active == Some(t) && Current(s, t) && !t.stage.Finished?
    ensures !s.snapshot.state.SignedIn?
  {
    hide Era, Proof, Reading;
  }

  /** An entry is noted while the operation ends; nothing yet rests on the log. */
  lemma NotedKeeps(s: State, t: Task, e: Entry, ok: bool)
    requires Inv(s) && s.active.Some? && s.active.value.generation == t.generation && !s.snapshot.state.SignedIn?
    ensures Inv(AtStage(s.(log := s.log + [e]), t, Finished(ok)))
  {
    hide Era, Proof;
  }

  lemma SubscriberKeeps(s: State, t: Task)
    requires Inv(s) && s.active == Some(t) && Current(s, t) && t.stage.AwaitAccount?
    ensures Inv(AtStage(Read(s, t, Subscriber), t, AwaitModels([], [])))
  {
    hide Era, Reading, Proof;
    EraGrows(s.log, AccountRead(t.generation, Subscriber));
    ReadingStarts(t.want, t.generation);
  }

  lemma AccountKeeps(s: State, t: Task, matches: bool, answer: AccountAnswer)
    requires Inv(s) && s.active == Some(t)
    ensures Inv(AccountStep(s, t, matches, answer))
  {
    hide Inv, Publish, AtStage, TaskInv;
    if t.stage.AwaitAccount? {
      FinishKeeps(s, t, false);
      if Current(s, t) {
        NotSignedIn(s, t);
        NotedKeeps(s, t, AccountRead(t.generation, answer), true);
        var done := AtStage(Read(s, t, answer), t, Finished(true));
        PublishKeeps(done, if s.pendingLogin.None? then SignedOut else SigningIn, [], NoDetail);
        PublishKeeps(done, Unavailable, [], SubscriptionRequired);
        SubscriberKeeps(s, t);
      }
    }
  }

  lemma LastPageProves(era: seq<Entry>, want: Want, generation: nat, models: seq<Text>, more: seq<Text>)
    requires Reading(era, want, generation, models)
    ensures Proof(era + [Page(generation, more, true)], generation, models + more)
  {
    hide IsPages, PageModels;
    var page := Page(generation, more, true);
    ReadingGrows(era, want, generation, models, more, true);
    assert (era + [page])[0] == Opening(want, generation)[0];
  }

  lemma PageKeeps(s: State, t: Task, models: seq<Text>, next: Option<Text>)
    requires Inv(s) && s.active == Some(t) && Current(s, t) && t.stage.AwaitModels?
    ensures var logged := s.(log := s.log + [Page(t.generation, models, next.None?)]);
            var all := t.stage.models + models;
            && (next.None? ==> Inv(Publish(AtStage(logged, t, Finished(true)), SignedIn, all, NoDetail)))
            && Inv(AtStage(logged, t, Finished(false)))
            && (next.Some? ==> Inv(AtStage(logged, t, AwaitModels(all, t.stage.cursors + [next.value]))))
  {
    hide Era, Reading, Proof;
    EraGrows(s.log, Page(t.generation, models, next.None?));
    ReadingGrows(Era(s.log), t.want, t.generation, t.stage.models, models, next.None?);
    LastPageProves(Era(s.log), t.want, t.generation, t.stage.models, models);
  }

  lemma ModelsKeeps(s: State, t: Task, matches: bool, models: seq<Text>, next: Option<Text>, valid: bool)
    requires Inv(s) && s.active == Some(t)
    ensures Inv(ModelsStep(s, t, matches, models, next, valid))
  {
    hide Inv, DistinctIds, AtStage, Publish;
    if t.stage.AwaitModels? {
      FinishKeeps(s, t, false);
      if Current(s, t) {
        PageKeeps(s, t, models, next);
      }
    }
  }

  lemma LoginKeeps(s: State, t: Task, matches: bool, challenge: Option<Text>)
    requires Inv(s) && s.active == Some(t)
    ensures Inv(LoginStep(s, t, matches, challenge))
  {
    hide Inv, Publish, AtStage, Invalidate;
    if t.stage.AwaitLogin? {
      FinishKeeps(s, t, false);
      FinishKeeps(s, t.(completed := true), false);
      if Current(s, t) && challenge.Some? {
        NotSignedIn(s, t);
        FlagsKeep(s, s.(pendingLogin := challenge));
        var waiting := s.(pendingLogin := challenge);
        NotedKeeps(waiting, t, LoginOpened(t.generation, challenge.value), true);
        PublishKeeps(AtStage(waiting.(log := s.log + [LoginOpened(t.generation, challenge.value)]), t, Finished(true)),
                     SigningIn, [], NoDetail);
      }
      var known := AtStage(s, t.(completed := true), Finished(false));
      FlagsKeep(known, known);
      InvalidateKeeps(known, Unchecked, NoDetail, None);
      InvalidateKeeps(known, Unchecked, Detail.LoginFailed, None);
    }
  }

  lemma CancelKeeps(s: State, t: Task, matches: bool, valid: bool)
    requires Inv(s) && s.active == Some(t)
    ensures Inv(CancelStep(s, t, matches, valid))
  {
    hide Inv, Publish, AtStage;
    FinishKeeps(s, t, false);
    if t.stage.AwaitCancel? && Current(s, t) {
      NotSignedIn(s, t);
      FlagsKeep(s, s.(pendingLogin := None));
      NotedKeeps(s.(pendingLogin := None), t, LoginCancelled(t.generation), true);
      PublishKeeps(AtStage(s.(pendingLogin := None, log := s.log + [LoginCancelled(t.generation)]), t, Finished(true)),
                   Unchecked, [], NoDetail);
    }
  }

  lemma LogoutKeeps(s: State, t: Task, matches: bool, valid: bool)
    requires Inv(s) && s.active == Some(t)
    ensures Inv(LogoutStep(s, t, matches, valid))
  {
    hide Era, Reading, Proof;
    FinishKeeps(s, t, false);
    if t.stage.AwaitLogout? && Current(s, t) {
      EraGrows(s.log, LoggedOut(t.generation));
    }
  }

  lemma SettleKeeps(s: State, t: Task)
    requires Inv(s) && s.active == Some(t)
    ensures Inv(SettleStep(s, t))
  {
    hide Era, Reading, Proof, TaskInv;
  }

  lemma AbortKeeps(s: State, timedOut: bool)
    requires Inv(s)
    ensures Inv(AbortTask(s, timedOut))
  {
    hide Era, Reading;
  }

  lemma RestKeeps(s: State)
    requires Inv(s) && s.reports != []
    ensures Inv(s.(reports := s.reports[1..]))
  {
    hide Era, Proof, TaskInv;
  }

  lemma AnswerKeeps(s: State)
    requires Inv(s)
    ensures Inv(AnswerStep(s))
  {
    hide Inv, Publish, Invalidate;
    if s.reports != [] {
      var r := s.reports[0];
      var rest := s.(reports := s.reports[1..]);
      RestKeeps(s);
      PublishKeeps(rest, Unavailable, [], if r.timedOut then TimeoutDetail else OperationFailed);
      var told := TellFailure(rest, r);
      FlagsKeep(told, told.(unresolvedLogin := true, pendingLogin := None));
      var closed := Invalidate(told.(unresolvedLogin := true, pendingLogin := None), RecoveryRequired, LoginUnresolved,
          None);
      InvalidateKeeps(told.(unresolvedLogin := true, pendingLogin := None), RecoveryRequired, LoginUnresolved, None);
      FlagsKeep(told, told.(loginDispatch := false, early := map[]));
      FlagsKeep(closed, closed.(loginDispatch := false, early := map[]));
    }
  }

  lemma NotifyKeeps(s: State, matches: bool, notice: Notice)
    requires Inv(s)
    ensures Inv(NotifyStep(s, matches, notice))
  {
    hide Inv, Invalidate, AbortTask;
    var detail := if notice.Disconnection? then Detail.Disconnected
                  else if notice.LoginCompleted? && !notice.success then Detail.LoginFailed else NoDetail;
    var state := if notice.Disconnection? then Unavailable else Unchecked;
    FlagsKeep(s, s.(pendingLogin := None));
    InvalidateKeeps(s.(pendingLogin := None), state, detail, None);
    AbortKeeps(Invalidate(s.(pendingLogin := None), state, detail, None), false);
    if notice.LoginCompleted? {
      FlagsKeep(s, s.(early := s.early[notice.loginId := notice.success]));
    }
  }

  lemma ClosingKeeps(s: State)
    requires Inv(s)
    ensures Inv(s.(closing := true, closeTask := Stopping))
  {
    hide Era, Proof, TaskInv;
  }

  lemma CloseKeeps(s: State, m: Move)
    requires Inv(s) && (m.BeginClose? || m.EndClose?)
    ensures Inv(Step(s, m))
  {
    hide Inv, AbortTask, Publish, Invalidate;
    if m.BeginClose? {
      ClosingKeeps(s);
      var closing := s.(closing := true, closeTask := Stopping);
      AbortKeeps(closing, false);
      var aborted := AbortTask(closing, false);
      FlagsKeep(aborted, aborted.(pendingLogin := None));
      InvalidateKeeps(aborted.(pendingLogin := None), Unchecked, NoDetail, None);
    } else {
      FlagsKeep(s, s.(closeTask := Stopped));
      FlagsKeep(s, s.(closeTask := NotClosing));
      PublishKeeps(s.(closeTask := Stopped), Closed, [], NoDetail);
      PublishKeeps(s.(closeTask := NotClosing), RecoveryRequired, [], StopUnproven);
    }
  }

  lemma StepKeeps(s: State, m: Move)
    requires Inv(s)
    ensures Inv(Step(s, m))
  {
    hide Inv, BeginStep, AnswerStep, AbortTask, NotifyStep, CloseStep, EndCloseStep, EnterStep;
    hide AccountStep, ModelsStep, LoginStep, CancelStep, LogoutStep, SettleStep;
    match m
    case Begin(want, cancelled, launch) => BeginKeeps(s, want, cancelled, launch);
    case Answer => AnswerKeeps(s);
    case Abort => AbortKeeps(s, false);
    case Timeout => AbortKeeps(s, true);
    case Notify(matches, notice) => NotifyKeeps(s, matches, notice);
    case BeginClose => CloseKeeps(s, m);
    case EndClose(_) => CloseKeeps(s, m);
    case _ =>
      if s.active.Some? {
        TaskKeeps(s, s.active.value, m);
      }
  }

  lemma TaskKeeps(s: State, t: Task, m: Move)
    requires Inv(s) && s.active == Some(t)
    ensures Inv(TaskStep(s, t, m))
  {
    hide Inv, EnterStep, AccountStep, ModelsStep, LoginStep, CancelStep, LogoutStep, SettleStep;
    if m.Enter? {
      EnterKeeps(s, t);
    } else if m.AccountReply? {
      AccountKeeps(s, t, m.matches, m.answer);
    } else if m.ModelsReply? {
      ModelsKeeps(s, t, m.matches, m.models, m.next, m.valid);
    } else if m.LoginReply? {
      LoginKeeps(s, t, m.matches, m.challenge);
    } else if m.CancelReply? {
      CancelKeeps(s, t, m.matches, m.valid);
    } else if m.LogoutReply? {
      LogoutKeeps(s, t, m.matches, m.valid);
    } else if m.TransportFails? {
      FinishKeeps(s, t, false);
    } else if m.Settle? {
      SettleKeeps(s, t);
    }
  }

  lemma {:induction false} RunKeeps(s: State, moves: seq<Move>)
    requires Inv(s)
    ensures Inv(Run(s, moves))
    decreases |moves|
  {
    hide Inv, Step;
    if moves != [] {
      StepKeeps(s, moves[0]);
      RunKeeps(Step(s, moves[0]), moves[1..]);
    }
  }

  /** Whenever the account shows as signed in, the generation shown is the
      current one, and in this generation an operation began, the account and
      every model page were answered for it, and nothing invalidated them. */
  lemma SignedInIsProven(moves: seq<Move>)
    ensures var s := Run(START, moves);
            && s.snapshot.generation == s.generation
            && (s.snapshot.state.SignedIn? ==> Proof(Era(s.log), s.generation, s.snapshot.models))
  {
    hide Run, Proof;
    assert Inv(START);
    RunKeeps(START, moves);
  }
}

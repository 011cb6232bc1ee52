/** Which frames a session accepts, told by the frames before them. */
module SessionFrames {
  import opened Texts
  import Json
  import opened Canonical
  import opened Ledger
  import opened S = Session
  import opened SessionHistory

  /** What every accepted frame of a kind must look like by itself. */
  predicate Sound(g: S.Config, f: Frame) {
    match f
    case ItemFrame(completed, _, _, id, content, time) => time && Identifier(id) && SoundContent(g, completed, content)
    case Callback(key, _, _, sent) => |key| <= 180 && sent
    case Delta(_, _, _, _, bounded) => bounded
    case TurnCompleted(_, _, success) => success
    case TurnStarted(_, turnId) => Identifier(turnId)
    case Notice(allowed) => allowed
    case _ => true
  }

  predicate SoundContent(g: S.Config, completed: bool, c: S.Content) {
    match c
    case ToolCall(_, _) => true
    case AgentMessage(phase, text, plain) =>
      && plain && Bounded(text, g.maxOutput, true)
      && (completed && phase.FinalAnswer? ==> Bounded(text, g.maxOutput, false))
    case UserMessage(asked) => asked
    case Reasoning(bounded) => bounded
    case OtherContent => false
  }

  lemma HeardIsSound(g: S.Config, s: S.Session, f: Frame)
    requires Hear(g, s, f).Heard?
    ensures Sound(g, f)
  {
    hide Bounded, Identifier, Do;
  }

  // ------------------------------------------------------- what has been shown

  predicate ItemOf(f: Frame, id: Text) {
    f.ItemFrame? && f.id == id
  }

  ghost predicate Shown(frames: seq<Frame>, id: Text, completed: bool) {
    exists k :: 0 <= k < |frames| && ItemOf(frames[k], id) && frames[k].completed == completed
  }

  lemma ShownMore(frames: seq<Frame>, f: Frame, id: Text, completed: bool)
    ensures Shown(frames + [f], id, completed) <==>
              Shown(frames, id, completed) || (ItemOf(f, id) && f.completed == completed)
  {
    var longer := frames + [f];
    assert longer[|frames|] == f;
    assert forall k :: 0 <= k < |frames| ==> longer[k] == frames[k];
  }

  /** The session's table of items is what the frames have shown. */
  ghost predicate ItemsMatch(items: map<Text, ItemState>, frames: seq<Frame>) {
    && (forall id :: id in items <==> Shown(frames, id, false) || Shown(frames, id, true))
    && (forall id :: id in items ==>
          (items[id].started <==> Shown(frames, id, false)) && (items[id].completed <==> Shown(frames, id, true)))
    && (forall k :: 0 <= k < |frames| && frames[k].ItemFrame? ==>
          frames[k].id in items && items[frames[k].id].tag == TagOf(frames[k].content))
  }

  predicate Admits(items: map<Text, ItemState>, f: Frame)
    requires f.ItemFrame?
  {
    if f.id in items
    then items[f.id].tag == TagOf(f.content) && !items[f.id].completed && (f.completed || !items[f.id].started)
    else |items| < MAX_ITEMS
  }

  function Itemised(items: map<Text, ItemState>, f: Frame): map<Text, ItemState>
    requires f.ItemFrame?
  {
    items[f.id := ItemState(TagOf(f.content), !f.completed || (f.id in items && items[f.id].started), f.completed)]
  }

  lemma ItemsAfter(g: S.Config, s: S.Session, f: Frame)
    requires Hear(g, s, f).Heard?
    ensures f.ItemFrame? ==> Admits(s.items, f) && Hear(g, s, f).session.items == Itemised(s.items, f)
    ensures !f.ItemFrame? ==> Hear(g, s, f).session.items == s.items
  {
    hide Hear;
    if f.ItemFrame? {
      ItemAfter(g, s, f);
    } else {
      OthersAfter(g, s, f);
    }
  }

  /** What an item says leaves the tables alone. */
  lemma ContentAfter(g: S.Config, s: S.Session, completed: bool, content: S.Content)
    requires ItemHeard(g, s, completed, content).Heard?
    ensures var t := ItemHeard(g, s, completed, content).session;
            && t.items == s.items && t.serverIds == s.serverIds && t.threadId == s.threadId && t.turnId == s.turnId
            && t.early == s.early && t.turnCompleted == s.turnCompleted
  {
    hide Bounded, Do;
  }

  lemma ItemAfter(g: S.Config, s: S.Session, f: Frame)
    requires f.ItemFrame? && Hear(g, s, f).Heard?
    ensures Admits(s.items, f) && Hear(g, s, f).session.items == Itemised(s.items, f)
    ensures var t := Hear(g, s, f).session;
            && t.serverIds == s.serverIds && t.threadId == s.threadId && t.turnId == s.turnId
            && t.early == s.early && t.turnCompleted == s.turnCompleted
  {
    hide ItemHeard, Identifier;
    ContentAfter(g, s.(items := Itemised(s.items, f)), f.completed, f.content);
  }

  lemma AnnouncementItems(g: S.Config, s: S.Session, f: Frame)
    requires f.TurnStarted? && Hear(g, s, f).Heard?
    ensures Hear(g, s, f).session.items == s.items
  {
    hide Identifier;
  }

  lemma CallbackItems(g: S.Config, s: S.Session, f: Frame)
    requires f.Callback? && Hear(g, s, f).Heard?
    ensures Hear(g, s, f).session.items == s.items
  {
    hide Bounded, Do;
  }

  lemma OthersAfter(g: S.Config, s: S.Session, f: Frame)
    requires !f.ItemFrame? && Hear(g, s, f).Heard?
    ensures Hear(g, s, f).session.items == s.items
  {
    hide Bounded, Identifier, Do, ItemStep, Announce;
    if f.TurnStarted? {
      AnnouncementItems(g, s, f);
    } else if f.Callback? {
      CallbackItems(g, s, f);
    }
  }

  lemma MatchMore(items: map<Text, ItemState>, frames: seq<Frame>, f: Frame)
    requires ItemsMatch(items, frames)
    ensures f.ItemFrame? && Admits(items, f) ==> ItemsMatch(Itemised(items, f), frames + [f])
    ensures !f.ItemFrame? ==> ItemsMatch(items, frames + [f])
  {
    hide Shown;
    var longer := frames + [f];
    var next := if f.ItemFrame? then Itemised(items, f) else items;
    if f.ItemFrame? ==> Admits(items, f) {
      forall id, completed ensures Shown(longer, id, completed) <==>
          Shown(frames, id, completed) || (ItemOf(f, id) && f.completed == completed)
      {
        ShownMore(frames, f, id, completed);
      }
      forall k | 0 <= k < |longer| && longer[k].ItemFrame?
        ensures longer[k].id in next && next[longer[k].id].tag == TagOf(longer[k].content)
      {
        assert k < |frames| ==> longer[k] == frames[k];
      }
    }
  }

  lemma NoneShown()
    ensures ItemsMatch(map[], [])
  {
  }

  // -------------------------------------------- keys and announcements so far

  function Keys(frames: seq<Frame>): set<Text> {
    set k | 0 <= k < |frames| && frames[k].Callback? :: frames[k].key
  }

  lemma KeysMore(frames: seq<Frame>, f: Frame)
    ensures Keys(frames + [f]) == Keys(frames) + if f.Callback? then {f.key} else {}
  {
    var longer := frames + [f];
    assert longer[|frames|] == f;
    assert forall k :: 0 <= k < |frames| ==> longer[k] == frames[k];
    forall key | key in Keys(frames) ensures key in Keys(longer) {
      var k :| 0 <= k < |frames| && frames[k].Callback? && frames[k].key == key;
      assert longer[k].key == key;
    }
  }

  /** How often a turn was announced. */
  function Announced(frames: seq<Frame>): nat {
    if frames == [] then 0
    else Announced(frames[..|frames| - 1]) + if frames[|frames| - 1].TurnStarted? then 1 else 0
  }

  function Early(s: S.Session): nat {
    if s.early.Some? then s.early.value.count else 0
  }

  ghost predicate Ended(frames: seq<Frame>) {
    exists k :: 0 <= k < |frames| && frames[k].TurnCompleted?
  }

  lemma EndedMore(frames: seq<Frame>, f: Frame)
    ensures Ended(frames + [f]) <==> Ended(frames) || f.TurnCompleted?
  {
    var longer := frames + [f];
    assert longer[|frames|] == f;
    assert forall k :: 0 <= k < |frames| ==> longer[k] == frames[k];
  }

  /** What a frame does to the keys, the announcements and the end. */
  predicate Counts(s: S.Session, f: Frame, t: S.Session) {
    && (f.Callback? ==> f.key !in s.serverIds && |s.serverIds| < MAX_SERVER_IDS)
    && t.serverIds == (if f.Callback? then s.serverIds + {f.key} else s.serverIds)
    && (t.turnId.None? ==> s.turnId.None? && Early(t) == Early(s) + if f.TurnStarted? then 1 else 0)
    && (t.turnId.None? && f.TurnStarted? ==> Early(t) <= MAX_EARLY)
    && (f.TurnCompleted? ==> !s.turnCompleted) && t.turnCompleted == (s.turnCompleted || f.TurnCompleted?)
  }

  lemma AnnouncementCounts(g: S.Config, s: S.Session, f: Frame)
    requires f.TurnStarted? && Hear(g, s, f).Heard?
    ensures Counts(s, f, Hear(g, s, f).session)
  {
    hide Identifier;
  }

  lemma CallbackCounts(g: S.Config, s: S.Session, f: Frame)
    requires f.Callback? && Hear(g, s, f).Heard?
    ensures Counts(s, f, Hear(g, s, f).session)
  {
    hide Bounded, Do;
  }

  lemma AnswerCounts(g: S.Config, s: S.Session, f: Frame)
    requires f.Answer? && Hear(g, s, f).Heard?
    ensures Counts(s, f, Hear(g, s, f).session)
  {
    hide Identifier, Do;
  }

  lemma EndCounts(g: S.Config, s: S.Session, f: Frame)
    requires f.TurnCompleted? && Hear(g, s, f).Heard?
    ensures Counts(s, f, Hear(g, s, f).session)
  {
    hide Bounded, Do;
  }

  lemma QuietCounts(g: S.Config, s: S.Session, f: Frame)
    requires (f.Request? || f.Expired? || f.Delta? || f.Notice?) && Hear(g, s, f).Heard?
    ensures Counts(s, f, Hear(g, s, f).session)
  {
    hide ItemStep, Announce;
  }

  lemma CountsAfter(g: S.Config, s: S.Session, f: Frame)
    requires Hear(g, s, f).Heard?
    ensures Counts(s, f, Hear(g, s, f).session)
  {
    hide Hear;
    if f.ItemFrame? {
      ItemAfter(g, s, f);
    } else if f.TurnStarted? {
      AnnouncementCounts(g, s, f);
    } else if f.Callback? {
      CallbackCounts(g, s, f);
    } else if f.Answer? {
      AnswerCounts(g, s, f);
    } else if f.TurnCompleted? {
      EndCounts(g, s, f);
    } else {
      QuietCounts(g, s, f);
    }
  }

  ghost predicate Remembers(s: S.Session, frames: seq<Frame>) {
    && ItemsMatch(s.items, frames) && |s.items| <= MAX_ITEMS
    && s.serverIds == Keys(frames) && |Keys(frames)| <= MAX_SERVER_IDS
    && (s.turnId.None? ==> Announced(frames) == Early(s) <= MAX_EARLY)
    && (s.turnCompleted <==> Ended(frames))
  }

  lemma RemembersMore(g: S.Config, s: S.Session, frames: seq<Frame>, f: Frame)
    requires Remembers(s, frames) && Hear(g, s, f).Heard?
    ensures Remembers(Hear(g, s, f).session, frames + [f])
  {
    hide Hear, ItemsMatch, Keys, Ended, Early, Itemised, Announced;
    ItemsAfter(g, s, f);
    MatchMore(s.items, frames, f);
    ItemisedSize(s.items, f);
    CountsAfter(g, s, f);
    KeysMore(frames, f);
    EndedMore(frames, f);
    AnnouncedMore(frames, f);
  }

  lemma ItemisedSize(items: map<Text, ItemState>, f: Frame)
    ensures f.ItemFrame? && Admits(items, f) && |items| <= MAX_ITEMS ==> |Itemised(items, f)| <= MAX_ITEMS
  {
  }

  lemma AnnouncedMore(frames: seq<Frame>, f: Frame)
    ensures Announced(frames + [f]) == Announced(frames) + if f.TurnStarted? then 1 else 0
  {
    assert (frames + [f])[..|frames|] == frames;
  }

  /** In every session the tables are what the accepted frames have brought. */
  lemma {:induction false} RunRemembers(g: S.Config, frames: seq<Frame>)
    requires HearAll(g, Start(), frames).Heard?
    ensures Remembers(HearAll(g, Start(), frames).session, frames)
    decreases |frames|
  {
    hide Hear, HearAll, Remembers;
    if frames == [] {
      StartRemembers(g);
    } else {
      var front, f := frames[..|frames| - 1], frames[|frames| - 1];
      assert frames == front + [f];
      HeardBefore(g, front, f);
      RunRemembers(g, front);
      RemembersMore(g, HearAll(g, Start(), front).session, front, f);
    }
  }

  lemma StartRemembers(g: S.Config)
    ensures HearAll(g, Start(), []).Heard? && Remembers(HearAll(g, Start(), []).session, [])
  {
    NoneShown();
  }

  lemma {:induction false} HeardUpto(g: S.Config, frames: seq<Frame>, k: nat)
    requires HearAll(g, Start(), frames).Heard? && k < |frames|
    ensures HearAll(g, Start(), frames[..k]).Heard?
    ensures Hear(g, HearAll(g, Start(), frames[..k]).session, frames[k]).Heard?
    decreases |frames|
  {
    hide Hear, HearAll;
    var front, f := frames[..|frames| - 1], frames[|frames| - 1];
    assert frames == front + [f];
    HeardBefore(g, front, f);
    if k < |front| {
      HeardUpto(g, front, k);
      assert front[..k] == frames[..k] && front[k] == frames[k];
    } else {
      assert frames[..k] == front;
    }
  }

  // --------------------------------------------------------- main results

  /** Every frame a session has accepted is sound by itself. */
  lemma AcceptedIsSound(g: S.Config, frames: seq<Frame>, k: nat)
    requires HearAll(g, Start(), frames).Heard? && k < |frames|
    ensures Sound(g, frames[k])
  {
    hide Hear, HearAll, Sound;
    HeardUpto(g, frames, k);
    HeardIsSound(g, HearAll(g, Start(), frames[..k]).session, frames[k]);
  }

  /** An item is shown at most twice, first as begun and then as completed, and
      of one kind; no more than 1024 items are shown. */
  lemma ItemsLive(g: S.Config, frames: seq<Frame>, i: nat, j: nat)
    requires HearAll(g, Start(), frames).Heard? && i < j < |frames|
    requires frames[i].ItemFrame? && frames[j].ItemFrame? && frames[i].id == frames[j].id
    ensures !frames[i].completed && frames[j].completed && TagOf(frames[i].content) == TagOf(frames[j].content)
  {
    hide Hear, HearAll, Keys, Ended, Early;
    HeardUpto(g, frames, j);
    RunRemembers(g, frames[..j]);
    ItemsAfter(g, HearAll(g, Start(), frames[..j]).session, frames[j]);
    assert frames[..j][i] == frames[i];
    assert Shown(frames[..j], frames[i].id, frames[i].completed) by {
      assert ItemOf(frames[..j][i], frames[i].id);
    }
  }

  /** At most 1024 items are shown and 1024 callbacks heard; no two callbacks
      have the same key; and a turn is announced at most eight times before
      its request is answered. */
  lemma WithinLimits(g: S.Config, frames: seq<Frame>)
    requires HearAll(g, Start(), frames).Heard?
    ensures |ItemIds(frames)| <= 1024 && |Keys(frames)| <= 1024
    ensures HearAll(g, Start(), frames).session.turnId.None? ==> Announced(frames) <= 8
    ensures forall i, j :: 0 <= i < j < |frames| && frames[i].Callback? && frames[j].Callback? ==>
              frames[i].key != frames[j].key
  {
    hide Hear, HearAll, Ended, Early;
    RunRemembers(g, frames);
    IdsAreItems(HearAll(g, Start(), frames).session.items, frames);
    forall i, j | 0 <= i < j < |frames| && frames[i].Callback? && frames[j].Callback?
      ensures frames[i].key != frames[j].key
    {
      HeardUpto(g, frames, j);
      RunRemembers(g, frames[..j]);
      CountsAfter(g, HearAll(g, Start(), frames[..j]).session, frames[j]);
      assert frames[..j][i].key in Keys(frames[..j]);
    }
  }

  function ItemIds(frames: seq<Frame>): set<Text> {
    set k | 0 <= k < |frames| && frames[k].ItemFrame? :: frames[k].id
  }

  lemma IdsAreItems(items: map<Text, ItemState>, frames: seq<Frame>)
    requires ItemsMatch(items, frames)
    ensures items.Keys == ItemIds(frames) && |items| == |ItemIds(frames)|
  {
    forall id ensures id in items.Keys <==> id in ItemIds(frames) {
      if id in items {
        var completed := items[id].completed;
        assert Shown(frames, id, false) || Shown(frames, id, true);
        var k :| 0 <= k < |frames| && ItemOf(frames[k], id);
      }
    }
    assert |items| == |items.Keys|;
  }

  // --------------------------------------------- exactly which are accepted

  /** The item is new and there is room, or it was begun as the same kind and
      is now completed. */
  ghost predicate MayShow(frames: seq<Frame>, f: Frame)
    requires f.ItemFrame?
  {
    && (forall k :: 0 <= k < |frames| && ItemOf(frames[k], f.id) ==>
          TagOf(frames[k].content) == TagOf(f.content) && !frames[k].completed && f.completed)
    && (f.id in ItemIds(frames) || |ItemIds(frames)| < 1024)
  }

  /** Could be the answer of the turn. */
  predicate MayAnswer(f: Frame) {
    Said(f, Unphased) || Said(f, FinalAnswer)
  }

  lemma AdmitsExactly(items: map<Text, ItemState>, frames: seq<Frame>, f: Frame)
    requires ItemsMatch(items, frames) && f.ItemFrame?
    ensures Admits(items, f) <==> MayShow(frames, f)
  {
    IdsAreItems(items, frames);
    assert f.id in items <==> f.id in ItemIds(frames);
    ShownAt(frames, f.id);
  }

  lemma ShownAt(frames: seq<Frame>, id: Text)
    ensures forall k :: 0 <= k < |frames| && ItemOf(frames[k], id) ==> Shown(frames, id, frames[k].completed)
  {
  }

  lemma ItemStepExactly(g: S.Config, s: S.Session, f: Frame)
    requires f.ItemFrame? && !f.content.ToolCall?
    ensures Hear(g, s, f).Heard? <==>
              && Sound(g, f) && S.InTurn(s, f.threadId, f.turnId) && !s.turnCompleted && Admits(s.items, f)
              && (MayAnswer(f) ==> s.output.None?)
  {
    hide Bounded, Identifier, Do;
  }

  lemma DeltaStepExactly(g: S.Config, s: S.Session, f: Frame)
    requires f.Delta?
    ensures Hear(g, s, f).Heard? <==>
              && f.bounded && S.InTurn(s, f.threadId, f.turnId) && !s.turnCompleted
              && f.itemId in s.items && s.items[f.itemId] == ItemState(f.tag, true, false)
  {
  }

  /** After any accepted frames an item that is no tool call is accepted
      exactly if it is sound, of the session's turn and before its end, new or
      now completed, and, when it could be the answer, before a final one. */
  lemma ItemAcceptedExactly(g: S.Config, frames: seq<Frame>, f: Frame)
    requires HearAll(g, Start(), frames).Heard? && f.ItemFrame? && !f.content.ToolCall?
    ensures HearAll(g, Start(), frames + [f]).Heard? <==>
              && Sound(g, f) && S.InTurn(HearAll(g, Start(), frames).session, f.threadId, f.turnId)
              && !Ended(frames) && MayShow(frames, f)
              && (MayAnswer(f) ==> forall k :: 0 <= k < |frames| ==> !Said(frames[k], FinalAnswer))
  {
    hide Hear, HearAll, Sound, Admits, MayShow, ItemsMatch, Ended, Keys, Early, S.InTurn, MayAnswer;
    var s := HearAll(g, Start(), frames).session;
    HearOneMore(g, Start(), frames, f);
    RunRemembers(g, frames);
    AdmitsExactly(s.items, frames, f);
    ItemStepExactly(g, s, f);
    if !s.turnCompleted {
      FinalIsOutput(g, frames);
    }
  }

  /** Before the turn's end there is an output exactly if a final answer was given. */
  lemma FinalIsOutput(g: S.Config, frames: seq<Frame>)
    requires HearAll(g, Start(), frames).Heard? && !HearAll(g, Start(), frames).session.turnCompleted
    ensures HearAll(g, Start(), frames).session.output.None? <==>
              forall k :: 0 <= k < |frames| ==> !Said(frames[k], FinalAnswer)
  {
    hide HearAll, Said;
    S.RunKeeps(g, frames);
  }

  /** A delta is accepted exactly if it is bounded, of the session's turn and
      before its end, and for an item begun as that kind and not yet completed. */
  lemma DeltaAcceptedExactly(g: S.Config, frames: seq<Frame>, f: Frame)
    requires HearAll(g, Start(), frames).Heard? && f.Delta?
    ensures HearAll(g, Start(), frames + [f]).Heard? <==>
              && f.bounded && S.InTurn(HearAll(g, Start(), frames).session, f.threadId, f.turnId) && !Ended(frames)
              && (exists k :: 0 <= k < |frames| && ItemOf(frames[k], f.itemId) && TagOf(frames[k].content) == f.tag)
              && (forall k :: 0 <= k < |frames| && ItemOf(frames[k], f.itemId) ==> !frames[k].completed)
  {
    hide Hear, HearAll, Ended, Keys, Early, S.InTurn;
    var s := HearAll(g, Start(), frames).session;
    HearOneMore(g, Start(), frames, f);
    RunRemembers(g, frames);
    DeltaStepExactly(g, s, f);
    if f.itemId in s.items {
      var begun := Shown(frames, f.itemId, false);
      var ended := Shown(frames, f.itemId, true);
      forall k | 0 <= k < |frames| && ItemOf(frames[k], f.itemId)
        ensures Shown(frames, f.itemId, frames[k].completed)
      {
      }
    }
  }

  /** A callback is accepted only under a key not used before, while the turn
      has neither ended nor been given its final answer. */
  lemma CallbackNeeds(g: S.Config, frames: seq<Frame>, f: Frame)
    requires HearAll(g, Start(), frames + [f]).Heard? && f.Callback?
    ensures f.key !in Keys(frames) && |Keys(frames)| < MAX_SERVER_IDS && !Ended(frames)
    ensures forall k :: 0 <= k < |frames| ==> !Said(frames[k], FinalAnswer)
  {
    hide Hear, HearAll, Ended, Keys, Early, ItemsMatch, Said;
    HeardBefore(g, frames, f);
    var s := HearAll(g, Start(), frames).session;
    RunRemembers(g, frames);
    CountsAfter(g, s, f);
    OpenTurn(g, s, f);
    FinalIsOutput(g, frames);
  }

  lemma OpenTurn(g: S.Config, s: S.Session, f: Frame)
    requires f.Callback? && Hear(g, s, f).Heard?
    ensures !s.turnCompleted && s.output.None?
  {
    hide Do, Bounded;
  }

  /** The open requests that would start the turn. */
  function Starting(s: S.Session): set<nat> {
    set id | id in s.pending && s.pending[id].TurnStart?
  }

  lemma AnnounceStepExactly(g: S.Config, s: S.Session, f: Frame)
    requires f.TurnStarted?
    ensures Hear(g, s, f).Heard? <==>
              && !s.turnCompleted && s.threadId == Some(f.threadId) && Identifier(f.turnId)
              && if s.turnId.Some? then s.turnId == Some(f.turnId)
                 else && (exists id :: Starting(s) == {id} && (s.early.None? || s.early.value.rpcId == id))
                      && (s.early.None? || s.early.value.turnId == f.turnId) && Early(s) < 8
  {
    hide Identifier;
    if s.turnId.None? {
      assert Starting(s) == set id | id in s.pending && s.pending[id].TurnStart?;
      if |Starting(s)| == 1 {
        assert Starting(s) == {Only(Starting(s))};
      }
    }
  }

  /** A turn may be announced until it has ended: by its own id once its
      request is answered, and before that at most eight times, always by the
      same id and for the one open request that could have started it. */
  lemma AnnouncedExactly(g: S.Config, frames: seq<Frame>, f: Frame)
    requires HearAll(g, Start(), frames).Heard? && f.TurnStarted?
    ensures var s := HearAll(g, Start(), frames).session;
            HearAll(g, Start(), frames + [f]).Heard? <==>
              && !Ended(frames) && s.threadId == Some(f.threadId) && Identifier(f.turnId)
              && if s.turnId.Some? then s.turnId == Some(f.turnId)
                 else && (exists id :: Starting(s) == {id} && (s.early.None? || s.early.value.rpcId == id))
                      && (s.early.None? || s.early.value.turnId == f.turnId) && Announced(frames) < 8
  {
    hide Hear, HearAll, Ended, Keys, Early, ItemsMatch, Identifier, Starting;
    HearOneMore(g, Start(), frames, f);
    RunRemembers(g, frames);
    AnnounceStepExactly(g, HearAll(g, Start(), frames).session, f);
  }

  lemma ScopeStep(g: S.Config, s: S.Session, f: Frame)
    requires Hear(g, s, f).Heard?
    ensures var t := Hear(g, s, f).session;
            && (t.threadId == s.threadId || (t.threadId.Some? && Identifier(t.threadId.value)))
            && (t.turnId == s.turnId || (t.turnId.Some? && Identifier(t.turnId.value)))
  {
    hide Identifier, Do, Bounded, ItemStep;
    if f.ItemFrame? {
      ItemAfter(g, s, f);
    }
  }

  /** The thread and the turn of a session are identifiers. */
  lemma {:induction false} ScopeIdentifies(g: S.Config, frames: seq<Frame>)
    requires HearAll(g, Start(), frames).Heard?
    ensures var s := HearAll(g, Start(), frames).session;
            && (s.threadId.Some? ==> Identifier(s.threadId.value)) && (s.turnId.Some? ==> Identifier(s.turnId.value))
    decreases |frames|
  {
    hide Hear, HearAll, Identifier;
    if frames == [] {
      StartRemembers(g);
      assert HearAll(g, Start(), []) == S.Heard(Start()) by {
        HearNothing(g);
      }
    } else {
      var front, f := frames[..|frames| - 1], frames[|frames| - 1];
      assert frames == front + [f];
      HeardBefore(g, front, f);
      ScopeIdentifies(g, front);
      ScopeStep(g, HearAll(g, Start(), front).session, f);
    }
  }

  lemma HearNothing(g: S.Config)
    ensures HearAll(g, Start(), []) == S.Heard(Start())
  {
  }
}

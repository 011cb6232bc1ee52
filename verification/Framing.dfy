/** The newline framer of the provider stream against splitting the whole stream. */
module Framing {
  import opened ByteLines
  import opened Texts

  datatype Fault = FrameLimit | FrameEncoding | FrameJson | FrameShape

  /** What becomes of one line: a frame, nothing (blank), or the end of the stream. */
  datatype Verdict = Frame | Blank | Bad(fault: Fault)

  /** `judge` stands for decoding, trimming and parsing a line within the bound. */
  datatype Rules = Rules(bound: nat, judge: Bytes -> Verdict)

  datatype Outcome = Outcome(frames: seq<Bytes>, fault: Option<Fault>)

  function Check(r: Rules, line: Bytes): Verdict {
    if |line| > r.bound then Bad(FrameLimit) else r.judge(line)
  }

  /** Lines in order up to the first bad one. */
  function Frames(r: Rules, lines: seq<Bytes>): Outcome {
    if lines == [] then Outcome([], None)
    else
      match Check(r, lines[0])
      case Bad(fault) => Outcome([], Some(fault))
      case Blank => Frames(r, lines[1..])
      case Frame =>
        var rest := Frames(r, lines[1..]);
        Outcome([lines[0]] + rest.frames, rest.fault)
  }

  lemma {:induction false} FramesAppend(r: Rules, front: seq<Bytes>, more: seq<Bytes>)
    requires Frames(r, front).fault.None?
    ensures Frames(r, front + more) == Outcome(Frames(r, front).frames + Frames(r, more).frames, Frames(r, more).fault)
  {
    if front == [] {
      assert front + more == more;
    } else {
      assert (front + more)[1..] == front[1..] + more;
      FramesAppend(r, front[1..], more);
    }
  }

  // ------------------------------------------- what an outcome is, by index

  /** A line within the bound that holds a frame; a blank line is none. */
  predicate Carries(r: Rules, line: Bytes) {
    |line| <= r.bound && r.judge(line).Frame?
  }

  /** Why a line ends the stream, if it does. */
  function Flaw(r: Rules, line: Bytes): Option<Fault> {
    if |line| > r.bound then Some(FrameLimit)
    else if r.judge(line).Bad? then Some(r.judge(line).fault) else None
  }

  /** The first `n` lines have no flaw, and the next one, if there is one, is
      the fault; the frames are the lines at `places`, which are in order all
      places before `n` that carry a frame. */
  ghost predicate Delivers(r: Rules, lines: seq<Bytes>, got: Outcome, n: nat, places: seq<nat>) {
    Faults(r, lines, got.fault, n) && Placing(lines, got.frames, n, places) && Marks(r, lines, n, places)
  }

  predicate Faults(r: Rules, lines: seq<Bytes>, fault: Option<Fault>, n: nat) {
    && n <= |lines| && (forall i :: 0 <= i < n ==> Flaw(r, lines[i]).None?)
    && if n == |lines| then fault.None? else fault.Some? && fault == Flaw(r, lines[n])
  }

  /** The frames stand at the places, which ascend. */
  predicate Placing(lines: seq<Bytes>, frames: seq<Bytes>, n: nat, places: seq<nat>) {
    && n <= |lines| && |frames| == |places| && (forall j, k :: 0 <= j < k < |places| ==> places[j] < places[k])
    && forall k :: 0 <= k < |places| ==> places[k] < n && frames[k] == lines[places[k]]
  }

  predicate Marks(r: Rules, lines: seq<Bytes>, n: nat, places: seq<nat>)
    requires n <= |lines|
  {
    forall i :: 0 <= i < n ==> (i in places <==> Carries(r, lines[i]))
  }

  lemma {:induction false} FramesDeliver(r: Rules, lines: seq<Bytes>) returns (n: nat, places: seq<nat>)
    ensures Delivers(r, lines, Frames(r, lines), n, places)
  {
    if lines == [] || Check(r, lines[0]).Bad? {
      n, places := 0, [];
    } else {
      var m, rest := FramesDeliver(r, lines[1..]);
      n := m + 1;
      places := Placed(Carries(r, lines[0]), rest);
      DeliversOne(r, lines, m, rest);
    }
  }

  function Moved(places: seq<nat>): seq<nat> {
    seq(|places|, k requires 0 <= k < |places| => places[k] + 1)
  }

  lemma MovedIn(places: seq<nat>, i: nat)
    ensures i in Moved(places) <==> i > 0 && i - 1 in places
  {
    if i > 0 && i - 1 in places {
      var k :| 0 <= k < |places| && places[k] == i - 1;
      assert Moved(places)[k] == i;
    }
  }

  /** The places of a shorter outcome, moved on by one, after the first line's own. */
  function Placed(carries: bool, rest: seq<nat>): seq<nat> {
    (if carries then [0] else []) + Moved(rest)
  }

  lemma PlacedInOrder(carries: bool, rest: seq<nat>, lines: seq<Bytes>, frames: seq<Bytes>, m: nat)
    requires lines != [] && Placing(lines[1..], frames, m, rest)
    ensures Placing(lines, (if carries then [lines[0]] else []) + frames, m + 1, Placed(carries, rest))
  {
    assert forall k :: 0 <= k < |rest| ==> Moved(rest)[k] == rest[k] + 1 && lines[1..][rest[k]] == lines[rest[k] + 1];
  }

  lemma PlacedIn(carries: bool, rest: seq<nat>, i: nat)
    ensures i in Placed(carries, rest) <==> if i == 0 then carries else i - 1 in rest
  {
    MovedIn(rest, i);
  }

  lemma MarksOne(r: Rules, lines: seq<Bytes>, m: nat, rest: seq<nat>)
    requires lines != [] && m + 1 <= |lines| && Marks(r, lines[1..], m, rest)
    ensures Marks(r, lines, m + 1, Placed(Carries(r, lines[0]), rest))
  {
    hide Carries, Placed;
    forall i | 0 <= i < m + 1 ensures i in Placed(Carries(r, lines[0]), rest) <==> Carries(r, lines[i]) {
      PlacedIn(Carries(r, lines[0]), rest, i);
      assert i > 0 ==> lines[i] == lines[1..][i - 1];
    }
  }

  lemma FaultsOne(r: Rules, lines: seq<Bytes>, fault: Option<Fault>, m: nat)
    requires lines != [] && Flaw(r, lines[0]).None? && Faults(r, lines[1..], fault, m)
    ensures Faults(r, lines, fault, m + 1)
  {
    hide Flaw;
    forall i | 0 <= i < m + 1 ensures Flaw(r, lines[i]).None? {
      assert i > 0 ==> lines[i] == lines[1..][i - 1];
    }
    assert m + 1 < |lines| ==> lines[m + 1] == lines[1..][m];
  }

  lemma DeliversOne(r: Rules, lines: seq<Bytes>, m: nat, rest: seq<nat>)
    requires lines != [] && !Check(r, lines[0]).Bad? && Delivers(r, lines[1..], Frames(r, lines[1..]), m, rest)
    ensures Delivers(r, lines, Frames(r, lines), m + 1, Placed(Carries(r, lines[0]), rest))
  {
    hide Carries, Flaw, Placed, Check, Faults, Placing, Marks;
    FlawOf(r, lines[0]);
    assert m <= |lines[1..]| by {
      FaultsFit(r, lines[1..], Frames(r, lines[1..]).fault, m);
    }
    FaultsOne(r, lines, Frames(r, lines[1..]).fault, m);
    PlacedInOrder(Carries(r, lines[0]), rest, lines, Frames(r, lines[1..]).frames, m);
    MarksOne(r, lines, m, rest);
    assert Frames(r, lines).frames ==
           (if Carries(r, lines[0]) then [lines[0]] else []) + Frames(r, lines[1..]).frames;
    assert Frames(r, lines).fault == Frames(r, lines[1..]).fault;
  }

  lemma FaultsFit(r: Rules, lines: seq<Bytes>, fault: Option<Fault>, n: nat)
    requires Faults(r, lines, fault, n)
    ensures n <= |lines|
  {
  }

  lemma FlawOf(r: Rules, line: Bytes)
    ensures Flaw(r, line).None? <==> !Check(r, line).Bad?
    ensures Carries(r, line) <==> Check(r, line).Frame?
  {
  }

  function Flatten(chunks: seq<Bytes>): Bytes {
    if chunks == [] then [] else chunks[0] + Flatten(chunks[1..])
  }

  /** The frames and the fault, if any, are what the bytes so far determine;
      without a fault `pending` is the line still open, within the bound. */
  ghost predicate Follows(r: Rules, bytes: Bytes, pending: Bytes, got: Outcome) {
    if got.fault.None? then
      Frames(r, Front(Split(bytes))) == got && Last(Split(bytes)) == pending
    else forall rest: Bytes :: Frames(r, Split(bytes + rest)) == got
  }

  lemma FollowsPiece(r: Rules, bytes: Bytes, pending: Bytes, got: Outcome, piece: Bytes)
    requires Follows(r, bytes, pending, got) && got.fault.None? && NEWLINE !in piece
    ensures Follows(r, bytes + piece, pending + piece, got)
  {
    AddPiece(bytes, piece);
  }

  /** The end of a line: its verdict decides whether the stream goes on. */
  lemma FollowsLine(r: Rules, bytes: Bytes, line: Bytes, got: Outcome)
    requires Follows(r, bytes, line, got) && got.fault.None?
    ensures var next := Frames(r, [line]);
            Follows(r, bytes + [NEWLINE], [], Outcome(got.frames + next.frames, next.fault))
  {
    hide Split, Check;
    AddNewline(bytes);
    var front := Front(Split(bytes));
    assert Split(bytes) == front + [line];
    FramesAppend(r, front, [line]);
    if Frames(r, [line]).fault.Some? {
      forall rest: Bytes
        ensures Frames(r, Split(bytes + [NEWLINE] + rest)) == Outcome(got.frames + Frames(r, [line]).frames,
            Frames(r, [line]).fault)
      {
        SplitAppend(bytes + [NEWLINE], rest);
        BadLineEnds(r, front, line, [[] + Split(rest)[0]] + Split(rest)[1..]);
        assert Split(bytes + [NEWLINE] + rest) == front + ([line] + ([[] + Split(rest)[0]] + Split(rest)[1..]));
      }
    }
  }

  lemma BadLineEnds(r: Rules, front: seq<Bytes>, line: Bytes, more: seq<Bytes>)
    requires Frames(r, front).fault.None? && Check(r, line).Bad?
    ensures Frames(r, front + ([line] + more)) == Outcome(Frames(r, front).frames, Some(Check(r, line).fault))
  {
    hide Check;
    FramesAppend(r, front, [line] + more);
  }

  /** A line already too long stays too long whatever follows. */
  lemma FollowsOverflow(r: Rules, bytes: Bytes, pending: Bytes, got: Outcome)
    requires Follows(r, bytes, pending, got) && got.fault.None? && |pending| > r.bound
    ensures Follows(r, bytes, pending, Outcome(got.frames, Some(FrameLimit)))
  {
    hide Split, Frames;
    var front := Front(Split(bytes));
    forall rest: Bytes ensures Frames(r, Split(bytes + rest)) == Outcome(got.frames, Some(FrameLimit)) {
      SplitAppend(bytes, rest);
      BadLineEnds(r, front, pending + Split(rest)[0], Split(rest)[1..]);
      assert Split(bytes + rest) == front + ([pending + Split(rest)[0]] + Split(rest)[1..]);
    }
  }

  class Framer {
    const rules: Rules
    var pending: Bytes
    var pushed: seq<Bytes>
    var fault: Option<Fault>

    constructor (rules: Rules)
      ensures this.rules == rules && pending == [] && pushed == [] && fault == None
    {
      this.rules := rules;
      pending, pushed, fault := [], [], None;
    }

    function Got(): Outcome
      reads this
    {
      Outcome(pushed, fault)
    }

    method Emit(line: Bytes)
      requires fault.None?
      modifies this`pushed, this`fault
      ensures var next := Frames(rules, [line]); pushed == old(pushed) + next.frames && fault == next.fault
    {
      if |line| > rules.bound {
        fault := Some(FrameLimit);
      } else {
        match rules.judge(line)
        case Bad(f) => fault := Some(f);
        case Blank =>
        case Frame => pushed := pushed + [line];
      }
    }

    /** One chunk, byte by byte. After an accepted chunk the open line is within the bound. */
    method Transform(chunk: Bytes, ghost before: Bytes)
      requires Follows(rules, before, pending, Got()) && fault.None?
      modifies this
      ensures Follows(rules, before + chunk, pending, Got()) && old(pushed) <= pushed
      ensures fault.None? ==> |pending| <= rules.bound
    {
      hide Follows, Frames, Split;
      var start, index := 0, 0;
      assert before + chunk[..0] == before;
      while index < |chunk|
        invariant start <= index <= |chunk| && NEWLINE !in chunk[start..index]
        invariant fault.None? && Follows(rules, before + chunk[..start], pending, Got()) && old(pushed) <= pushed
      {
        if chunk[index] == NEWLINE {
          ghost var seen := before + chunk[..start];
          var line := pending + chunk[start..index];
          FollowsPiece(rules, seen, pending, Got(), chunk[start..index]);
          FollowsLine(rules, seen + chunk[start..index], line, Got());
          assert seen + chunk[start..index] + [NEWLINE] == before + chunk[..index + 1];
          Emit(line);
          if fault.Some? {
            FollowsForever(rules, before + chunk[..index + 1], [], pending, Got(), chunk[index + 1..]);
            assert before + chunk[..index + 1] + chunk[index + 1..] == before + chunk;
            return;
          }
          pending := [];
          start := index + 1;
        }
        index := index + 1;
      }
      FollowsPiece(rules, before + chunk[..start], pending, Got(), chunk[start..]);
      assert before + chunk[..start] + chunk[start..] == before + chunk;
      pending := pending + chunk[start..];
      if |pending| > rules.bound {
        FollowsOverflow(rules, before + chunk, pending, Got());
        fault := Some(FrameLimit);
      }
    }

    /** The end of the stream: the open line is checked like any other. */
    method Flush(ghost before: Bytes)
      requires Follows(rules, before, pending, Got()) && fault.None?
      modifies this
      ensures Got() == Frames(rules, Split(before))
    {
      hide Split, Frames;
      FramesAppend(rules, Front(Split(before)), [pending]);
      assert Split(before) == Front(Split(before)) + [pending];
      Emit(pending);
      pending := [];
    }
  }

  /** After a fault nothing that follows matters. */
  lemma FollowsForever(r: Rules, bytes: Bytes, pending: Bytes, later: Bytes, got: Outcome, more: Bytes)
    requires Follows(r, bytes, pending, got) && got.fault.Some?
    ensures Follows(r, bytes + more, later, got)
  {
    hide Split, Frames;
    forall rest: Bytes ensures Frames(r, Split(bytes + more + rest)) == got {
      assert bytes + more + rest == bytes + (more + rest);
    }
  }

  lemma FollowsNothing(r: Rules)
    ensures Follows(r, [], [], Outcome([], None))
  {
  }

  lemma {:induction false} FlattenTake(chunks: seq<Bytes>, k: nat)
    requires k < |chunks|
    ensures Flatten(chunks[..k + 1]) == Flatten(chunks[..k]) + chunks[k]
  {
    if k == 0 {
      assert chunks[..1][1..] == [] && chunks[..0] == [];
      assert Flatten(chunks[..1]) == chunks[0] + Flatten([]);
    } else {
      FlattenTake(chunks[1..], k - 1);
      assert chunks[..k + 1][1..] == chunks[1..][..k] && chunks[..k][1..] == chunks[1..][..k - 1];
    }
  }

  /** However the stream is cut into chunks, the frames and the outcome are
      those of splitting the whole stream at its line feeds. */
  method Pipe(rules: Rules, chunks: seq<Bytes>) returns (got: Outcome)
    ensures got == Frames(rules, Split(Flatten(chunks)))
    ensures exists n: nat, places: seq<nat> :: Delivers(rules, Split(Flatten(chunks)), got, n, places)
  {
    hide Follows, Frames, Split, Delivers;
    ghost var n, places := FramesDeliver(rules, Split(Flatten(chunks)));
    var framer := new Framer(rules);
    FollowsNothing(rules);
    var k := 0;
    while k < |chunks|
      invariant 0 <= k <= |chunks| && framer.rules == rules && fresh(framer)
      invariant framer.fault.None? && Follows(rules, Flatten(chunks[..k]), framer.pending, framer.Got())
    {
      FlattenTake(chunks, k);
      framer.Transform(chunks[k], Flatten(chunks[..k]));
      if framer.fault.Some? {
        FaultFinal(rules, chunks, k + 1, framer.pending, framer.Got());
        return framer.Got();
      }
      k := k + 1;
    }
    assert chunks[..k] == chunks;
    framer.Flush(Flatten(chunks));
    got := framer.Got();
  }

  lemma FaultFinal(r: Rules, chunks: seq<Bytes>, k: nat, pending: Bytes, got: Outcome)
    requires k <= |chunks| && Follows(r, Flatten(chunks[..k]), pending, got) && got.fault.Some?
    ensures got == Frames(r, Split(Flatten(chunks)))
  {
    hide Split, Frames;
    FlattenSplit(chunks, k);
  }

  lemma {:induction false} FlattenSplit(chunks: seq<Bytes>, k: nat)
    requires k <= |chunks|
    ensures Flatten(chunks) == Flatten(chunks[..k]) + Flatten(chunks[k..])
  {
    if k == 0 {
      assert chunks[0..] == chunks;
    } else {
      FlattenSplit(chunks[1..], k - 1);
      assert chunks[..k][1..] == chunks[1..][..k - 1] && chunks[1..][k - 1..] == chunks[k..];
      assert Flatten(chunks) == chunks[0] + (Flatten(chunks[1..][..k - 1]) + Flatten(chunks[k..]));
    }
  }
}

/** The hash-chained custody journal: how it is read back, and that every
    prefix of what the launcher writes reads back as its last whole record. */
module Journals {
  import opened ByteLines
  import opened Texts

  const MAX_JOURNAL := 128 * 1024
  const MAX_RECORD := 16 * 1024
  const MAX_RECORDS := 8
  const MAX_ERRORS := 32

  datatype ErrorCode =
    | SpawnError | Startup | StdinClose | SignalTerm | SignalKill | GroupAbsenceUnproven | CustodyUnproven
    | StreamCustodyUnproven | SnapshotDrift | ParentDrift | ScratchRemoval | InitialWrite | FinalWrite | StreamError

  /** The fields that name the run; no record may change them. */
  datatype Binding = Binding(
    runId: Text, accountId: Text, workspaceId: Text, custodyPath: Text,
    configSha256: Text, profileSha256: Text, runtimeSnapshotSha256: Text, parentRuntimeSha256: Text,
    scratchContentSha256: Text, scratchIdentitySha256: Text)

  datatype Snapshot = Snapshot(
    binding: Binding, pid: Option<nat>, pgid: Option<nat>,
    rootExited: bool, groupAbsent: bool, stdioJoined: bool, scratchRetained: bool,
    exitCode: Option<nat>, exitSignal: Option<Text>, runtimeErrors: seq<ErrorCode>, cleanupErrors: seq<ErrorCode>)

  datatype Record = Record(sequence: nat, previous: Option<Bytes>, snapshot: Snapshot)

  /** The JSON encoding of a record, its decoding and the digest of a line. */
  datatype Codec = Codec(encode: Record -> Bytes, decode: Bytes -> Option<Record>, digest: Bytes -> Bytes)

  /** What is taken from JSON: records decode as written and a record has no line feed. */
  ghost predicate Faithful(c: Codec) {
    forall r: Record :: c.decode(c.encode(r)) == Some(r) && NEWLINE !in c.encode(r)
  }

  // ------------------------------------------------------ what is checked

  predicate LowerHex(t: Text) {
    |t| == 64 && forall i :: 0 <= i < |t| ==> 48 <= t[i] <= 57 || 97 <= t[i] <= 102
  }

  predicate SignalName(t: Text) {
    |t| > 3 && t[..3] == [83, 73, 71] && forall i :: 3 <= i < |t| ==> 48 <= t[i] <= 57 || 65 <= t[i] <= 90
  }

  predicate BindingOk(b: Binding) {
    && Identifier(b.runId) && Identifier(b.accountId) && Identifier(b.workspaceId)
    && LowerHex(b.configSha256) && LowerHex(b.profileSha256) && LowerHex(b.runtimeSnapshotSha256)
    && LowerHex(b.parentRuntimeSha256) && LowerHex(b.scratchContentSha256) && LowerHex(b.scratchIdentitySha256)
    && b.custodyPath != [] && b.custodyPath[0] == 47
  }

  predicate ProcessId(p: Option<nat>) {
    p.Some? ==> 1 <= p.value <= MAX_SAFE
  }

  predicate FieldsOk(s: Snapshot) {
    && BindingOk(s.binding) && ProcessId(s.pid) && ProcessId(s.pgid)
    && |s.runtimeErrors| <= MAX_ERRORS && |s.cleanupErrors| <= MAX_ERRORS
    && (s.exitCode.Some? ==> s.exitCode.value <= MAX_SAFE)
    && (s.exitSignal.Some? ==> SignalName(s.exitSignal.value))
  }

  predicate Ordered(s: Snapshot) {
    && (s.groupAbsent ==> s.rootExited)
    && (!s.scratchRetained ==> s.rootExited && s.groupAbsent && s.stdioJoined)
  }

  predicate SameProcess(prior: Snapshot, s: Snapshot) {
    (prior.pid.Some? ==> s.pid == prior.pid) && (prior.pgid.Some? ==> s.pgid == prior.pgid)
  }

  predicate Monotone(prior: Snapshot, s: Snapshot) {
    (prior.rootExited ==> s.rootExited) && (prior.groupAbsent ==> s.groupAbsent) &&
        (prior.stdioJoined ==> s.stdioJoined)
  }

  /** What a later record may differ in from an earlier one. */
  predicate Evolves(prior: Snapshot, s: Snapshot) {
    s.binding == prior.binding && SameProcess(prior, s) && Monotone(prior, s)
  }

  datatype Fault =
    | JournalBound | Incomplete | RecordBound | Undecodable | ChainInvalid | FieldInvalid | OrderInvalid
    | BindingChanged | ProcessChanged | Regressed

  datatype Reading = Unreadable(fault: Fault) | Recovered(snapshot: Snapshot, incompleteTail: bool)

  function CheckSnapshot(s: Snapshot, prior: Option<Snapshot>): Option<Fault> {
    if !FieldsOk(s) then Some(FieldInvalid)
    else if !Ordered(s) then Some(OrderInvalid)
    else if prior.Some? && s.binding != prior.value.binding then Some(BindingChanged)
    else if prior.Some? && !SameProcess(prior.value, s) then Some(ProcessChanged)
    else if prior.Some? && !Monotone(prior.value, s) then Some(Regressed)
    else None
  }

  /** The verdict on one line at its place in the chain. */
  function CheckLine(c: Codec, line: Bytes, index: nat, previous: Option<Bytes>,
      prior: Option<Snapshot>): Option<Fault> {
    if |line| > MAX_RECORD then Some(RecordBound)
    else
      match c.decode(line)
      case None => Some(Undecodable)
      case Some(r) => if r.sequence != index || r.previous != previous then Some(ChainInvalid)
          else CheckSnapshot(r.snapshot, prior)
  }

  // ------------------------------------------------------------ the reader

  lemma {:induction false} LinesBound(lines: seq<Bytes>)
    requires forall i :: 0 <= i < |lines| ==> |lines[i]| < MAX_RECORD
    ensures |Lines(lines)| <= MAX_RECORD * |lines|
  {
    if lines != [] {
      LinesBound(lines[1..]);
    }
  }

  function ReadFrom(c: Codec, lines: seq<Bytes>, index: nat, previous: Option<Bytes>, prior: Option<Snapshot>,
      tail: Bytes): Reading
    requires lines != [] || prior.Some?
  {
    if lines == [] then Recovered(prior.value, tail != [])
    else
      var fault := CheckLine(c, lines[0], index, previous, prior);
      if fault.Some? then Unreadable(fault.value)
      else ReadFrom(c, lines[1..], index + 1, Some(c.digest(lines[0] + [NEWLINE])),
          Some(c.decode(lines[0]).value.snapshot), tail)
  }

  function ReadJournal(c: Codec, text: Bytes): Reading {
    var pieces := Split(text);
    var lines, tail := pieces[..|pieces| - 1], pieces[|pieces| - 1];
    if |text| > MAX_JOURNAL then Unreadable(JournalBound)
    else if lines == [] || |lines| > MAX_RECORDS then Unreadable(Incomplete)
    else ReadFrom(c, lines, 0, None, None, tail)
  }

  method ParseCustodyJournal(c: Codec, text: Bytes) returns (r: Reading)
    ensures r == ReadJournal(c, text)
  {
    hide Split, CheckLine;
    if |text| > MAX_JOURNAL {
      return Unreadable(JournalBound);
    }
    var pieces := Split(text);
    var lines, tail := pieces[..|pieces| - 1], pieces[|pieces| - 1];
    if lines == [] || |lines| > MAX_RECORDS {
      return Unreadable(Incomplete);
    }
    var previous: Option<Bytes>, snapshot: Option<Snapshot>, index := None, None, 0;
    while index < |lines|
      invariant 0 <= index <= |lines| && (index > 0 ==> snapshot.Some?)
      invariant ReadFrom(c, lines, 0, None, None, tail) == ReadFrom(c, lines[index..], index, previous, snapshot, tail)
    {
      var line := lines[index];
      var fault := CheckLine(c, line, index, previous, snapshot);
      if fault.Some? {
        return Unreadable(fault.value);
      }
      assert c.decode(line).Some? by {
        LineDecodes(c, line, index, previous, snapshot);
      }
      assert lines[index..][1..] == lines[index + 1..];
      previous := Some(c.digest(line + [NEWLINE]));
      snapshot := Some(c.decode(line).value.snapshot);
      index := index + 1;
    }
    r := Recovered(snapshot.value, tail != []);
  }

  lemma LineDecodes(c: Codec, line: Bytes, index: nat, previous: Option<Bytes>, prior: Option<Snapshot>)
    requires CheckLine(c, line, index, previous, prior).None?
    ensures c.decode(line).Some?
  {
  }

  // ------------------------------------------------- what acceptance means

  /** Line `i` decodes to a sound record numbered `i` that names the digest of
      the line before it and evolves from that line's snapshot. */
  predicate Sound(c: Codec, lines: seq<Bytes>, i: nat)
    requires i < |lines|
  {
    && |lines[i]| <= MAX_RECORD && c.decode(lines[i]).Some?
    && c.decode(lines[i]).value.sequence == i && c.decode(lines[i]).value.previous == DigestBefore(c, lines, i)
    && FieldsOk(c.decode(lines[i]).value.snapshot) && Possible(c.decode(lines[i]).value.snapshot)
    && (i > 0 ==> c.decode(lines[i - 1]).Some? &&
                  Succeeds(c.decode(lines[i - 1]).value.snapshot, c.decode(lines[i]).value.snapshot))
  }

  /** The group goes after the root, and the scratch directory after everything. */
  predicate Possible(s: Snapshot) {
    (s.rootExited || !s.groupAbsent) && (s.scratchRetained || (s.rootExited && s.groupAbsent && s.stdioJoined))
  }

  /** The same run, the same process once it is known, and nothing taken back. */
  predicate Succeeds(prior: Snapshot, s: Snapshot) {
    && s.binding == prior.binding
    && (prior.pid.None? || s.pid == prior.pid) && (prior.pgid.None? || s.pgid == prior.pgid)
    && (s.rootExited || !prior.rootExited) && (s.groupAbsent || !prior.groupAbsent)
    && (s.stdioJoined || !prior.stdioJoined)
  }

  function DigestBefore(c: Codec, lines: seq<Bytes>, i: nat): Option<Bytes>
    requires i <= |lines|
  {
    if i == 0 then None else Some(c.digest(lines[i - 1] + [NEWLINE]))
  }

  function SnapshotBefore(c: Codec, lines: seq<Bytes>, i: nat): Option<Snapshot>
    requires i <= |lines| && (i > 0 ==> c.decode(lines[i - 1]).Some?)
  {
    if i == 0 then None else Some(c.decode(lines[i - 1]).value.snapshot)
  }

  lemma CheckIsSound(c: Codec, lines: seq<Bytes>, i: nat)
    requires i < |lines| && (i > 0 ==> c.decode(lines[i - 1]).Some?)
    ensures CheckLine(c, lines[i], i, DigestBefore(c, lines, i), SnapshotBefore(c, lines, i)).None? <==>
              Sound(c, lines, i)
  {
    hide FieldsOk;
  }

  lemma {:induction false} LinesSound(c: Codec, lines: seq<Bytes>, k: nat, tail: Bytes)
    requires lines != [] && k <= |lines| && (k > 0 ==> c.decode(lines[k - 1]).Some?)
    ensures var r := ReadFrom(c, lines[k..], k, DigestBefore(c, lines, k), SnapshotBefore(c, lines, k), tail);
            && (r.Recovered? <==> forall i :: k <= i < |lines| ==> Sound(c, lines, i))
            && (r.Recovered? ==> r.incompleteTail == (tail != []) && c.decode(lines[|lines| - 1]).Some? &&
                                 r.snapshot == c.decode(lines[|lines| - 1]).value.snapshot)
    decreases |lines| - k
  {
    hide Sound, CheckLine;
    if k < |lines| {
      CheckIsSound(c, lines, k);
      if Sound(c, lines, k) {
        LineDecodes(c, lines[k], k, DigestBefore(c, lines, k), SnapshotBefore(c, lines, k));
        assert lines[k..][1..] == lines[k + 1..];
        LinesSound(c, lines, k + 1, tail);
      }
    }
  }

  /** A journal is accepted exactly when it is within its bounds and all of its
      whole lines are sound, and what is recovered is the last one's snapshot. */
  lemma AcceptedIsSound(c: Codec, text: Bytes)
    ensures var r, lines, tail := ReadJournal(c, text), Front(Split(text)), Last(Split(text));
            && (r.Recovered? <==>
                  |text| <= MAX_JOURNAL && 0 < |lines| <= MAX_RECORDS &&
                  forall i :: 0 <= i < |lines| ==> Sound(c, lines, i))
            && (r.Recovered? ==> lines != [] && c.decode(lines[|lines| - 1]).Some? &&
                                 r == Recovered(c.decode(lines[|lines| - 1]).value.snapshot, tail != []))
  {
    hide Sound, Split, ReadFrom;
    var lines := Front(Split(text));
    if lines != [] {
      assert lines[0..] == lines;
      LinesSound(c, lines, 0, Last(Split(text)));
    }
  }

  /** What is wrong with line `i` when all before it are sound. */
  predicate Flawed(c: Codec, lines: seq<Bytes>, i: nat, fault: Fault)
    requires i < |lines|
  {
    var r := c.decode(lines[i]);
    var prior := if i == 0 then None else c.decode(lines[i - 1]);
    match fault
    case RecordBound => |lines[i]| > MAX_RECORD
    case Undecodable => r.None?
    case ChainInvalid => r.Some? && (r.value.sequence != i || r.value.previous != DigestBefore(c, lines, i))
    case FieldInvalid => r.Some? && !FieldsOk(r.value.snapshot)
    case OrderInvalid => r.Some? && !Ordered(r.value.snapshot)
    case BindingChanged => r.Some? && prior.Some? && r.value.snapshot.binding != prior.value.snapshot.binding
    case ProcessChanged => r.Some? && prior.Some? && !SameProcess(prior.value.snapshot, r.value.snapshot)
    case Regressed => r.Some? && prior.Some? && !Monotone(prior.value.snapshot, r.value.snapshot)
    case _ => false
  }

  lemma CheckIsFlaw(c: Codec, lines: seq<Bytes>, i: nat)
    requires i < |lines| && (i > 0 ==> c.decode(lines[i - 1]).Some?)
    ensures var fault := CheckLine(c, lines[i], i, DigestBefore(c, lines, i), SnapshotBefore(c, lines, i));
            fault.Some? ==> Flawed(c, lines, i, fault.value)
  {
    hide FieldsOk, Ordered, SameProcess, Monotone;
  }

  lemma {:induction false} FirstFlaw(c: Codec, lines: seq<Bytes>, k: nat, tail: Bytes) returns (i: nat)
    requires lines != [] && k <= |lines| && (k > 0 ==> c.decode(lines[k - 1]).Some?)
    requires ReadFrom(c, lines[k..], k, DigestBefore(c, lines, k), SnapshotBefore(c, lines, k), tail).Unreadable?
    ensures k <= i < |lines| && (forall j :: k <= j < i ==> Sound(c, lines, j))
    ensures var r := ReadFrom(c, lines[k..], k, DigestBefore(c, lines, k), SnapshotBefore(c, lines, k), tail);
            Flawed(c, lines, i, r.fault)
    decreases |lines| - k
  {
    hide Sound, CheckLine, Flawed;
    CheckIsSound(c, lines, k);
    CheckIsFlaw(c, lines, k);
    i := k;
    if Sound(c, lines, k) {
      LineDecodes(c, lines[k], k, DigestBefore(c, lines, k), SnapshotBefore(c, lines, k));
      assert lines[k..][1..] == lines[k + 1..];
      i := FirstFlaw(c, lines, k + 1, tail);
    }
  }

  /** The fault a journal is refused with is that of its first line that is
      not sound, unless the journal as a whole is too long or has no or too
      many whole lines. */
  lemma RefusedForFirstFlaw(c: Codec, text: Bytes) returns (i: nat)
    requires ReadJournal(c, text).Unreadable?
    ensures var fault, lines := ReadJournal(c, text).fault, Front(Split(text));
            if |text| > MAX_JOURNAL then fault == JournalBound
            else if lines == [] || |lines| > MAX_RECORDS then fault == Incomplete
            else i < |lines| && (forall j :: 0 <= j < i ==> Sound(c, lines, j)) && Flawed(c, lines, i, fault)
  {
    hide Sound, Split, ReadFrom, Flawed;
    var lines := Front(Split(text));
    i := 0;
    if |text| <= MAX_JOURNAL && 0 < |lines| <= MAX_RECORDS {
      assert lines[0..] == lines;
      i := FirstFlaw(c, lines, 0, Last(Split(text)));
    }
  }
}

/** The launcher that writes the custody journal while its process lives and
    dies, and what any prefix of the file it leaves says. */
module JournalWriter {
  import opened ByteLines
  import opened Texts
  import opened Journals

  // ------------------------------------------------ chains and their prefixes

  function Encodings(c: Codec, records: seq<Record>): (lines: seq<Bytes>)
    ensures |lines| == |records| && forall i :: 0 <= i < |records| ==> lines[i] == c.encode(records[i])
  {
    seq(|records|, i requires 0 <= i < |records| => c.encode(records[i]))
  }

  function Link(c: Codec, records: seq<Record>): Option<Bytes> {
    if records == [] then None else Some(c.digest(c.encode(records[|records| - 1]) + [NEWLINE]))
  }

  function Latest(records: seq<Record>): Option<Snapshot> {
    if records == [] then None else Some(records[|records| - 1].snapshot)
  }

  /** Record `i` is numbered, linked, sound and a successor of the one before. */
  predicate Chained(c: Codec, records: seq<Record>, i: nat)
    requires i < |records|
  {
    var r := records[i];
    && r.sequence == i && r.previous == Link(c, records[..i]) && |c.encode(r)| < MAX_RECORD
    && FieldsOk(r.snapshot) && Ordered(r.snapshot)
    && (i > 0 ==> Evolves(records[i - 1].snapshot, r.snapshot))
  }

  predicate Chain(c: Codec, records: seq<Record>) {
    forall i :: 0 <= i < |records| ==> Chained(c, records, i)
  }

  lemma {:induction false} ReadChain(c: Codec, records: seq<Record>, from: nat, whole: nat, tail: Bytes)
    requires Faithful(c) && Chain(c, records) && from <= whole <= |records| && whole > 0
    ensures ReadFrom(c, Encodings(c, records[from..whole]), from, Link(c, records[..from]), Latest(records[..from]),
        tail)
         == Recovered(records[whole - 1].snapshot, tail != [])
    decreases whole - from
  {
    var lines := Encodings(c, records[from..whole]);
    if from < whole {
      var r := records[from];
      assert Chained(c, records, from);
      assert c.decode(c.encode(r)) == Some(r);
      LineAccepted(c, records, from);
      assert lines[1..] == Encodings(c, records[from + 1..whole]);
      assert records[..from + 1][..from] == records[..from];
      ReadChain(c, records, from + 1, whole, tail);
    }
  }

  lemma LineAccepted(c: Codec, records: seq<Record>, i: nat)
    requires i < |records| && Chained(c, records, i) && c.decode(c.encode(records[i])) == Some(records[i])
    ensures CheckLine(c, c.encode(records[i]), i, Link(c, records[..i]), Latest(records[..i])).None?
  {
    hide FieldsOk, Link;
    if i > 0 {
      assert Latest(records[..i]) == Some(records[i - 1].snapshot);
    }
  }

  lemma EncodedPlain(c: Codec, records: seq<Record>)
    requires Faithful(c)
    ensures forall i :: 0 <= i < |records| ==> NEWLINE !in Encodings(c, records)[i]
  {
    forall i | 0 <= i < |records| ensures NEWLINE !in c.encode(records[i]) {
      RecordPlain(c, records[i]);
    }
  }

  lemma RecordPlain(c: Codec, r: Record)
    requires Faithful(c)
    ensures NEWLINE !in c.encode(r)
  {
    assert c.decode(c.encode(r)) == Some(r);
  }

  lemma WholeChainReads(c: Codec, records: seq<Record>, tail: Bytes)
    requires Faithful(c) && Chain(c, records) && records != []
    ensures ReadFrom(c, Encodings(c, records), 0, None, None, tail)
         == Recovered(records[|records| - 1].snapshot, tail != [])
  {
    hide ReadFrom, Chain, Faithful, Encodings;
    assert records[0..|records|] == records && records[..0] == [];
    ReadChain(c, records, 0, |records|, tail);
  }

  /** The whole lines of a text that are a chain read as its last record. */
  lemma ChainReads(c: Codec, records: seq<Record>, tail: Bytes)
    requires Faithful(c) && Chain(c, records) && 0 < |records| <= MAX_RECORDS && NEWLINE !in tail
    requires |Lines(Encodings(c, records)) + tail| <= MAX_JOURNAL
    ensures ReadJournal(c, Lines(Encodings(c, records)) + tail)
         == Recovered(records[|records| - 1].snapshot, tail != [])
  {
    hide ReadFrom, Split, Chain, Lines, Faithful;
    var lines := Encodings(c, records);
    EncodedPlain(c, records);
    SplitLines(lines, tail);
    assert (lines + [tail])[..|lines|] == lines;
    WholeChainReads(c, records, tail);
  }

  lemma ChainPrefix(c: Codec, records: seq<Record>, whole: nat)
    requires Chain(c, records) && whole <= |records|
    ensures Chain(c, records[..whole])
  {
    hide FieldsOk, Ordered, Evolves, Link;
    forall i | 0 <= i < whole ensures Chained(c, records[..whole], i) {
      assert Chained(c, records, i);
      assert records[..whole][..i] == records[..i];
    }
  }

  lemma ChainFits(c: Codec, records: seq<Record>, partial: Bytes)
    requires Faithful(c) && Chain(c, records)
    requires |partial| <= MAX_RECORD && |records| + (if partial == [] then 0 else 1) <= MAX_RECORDS
    ensures forall i :: 0 <= i < |records| ==> NEWLINE !in Encodings(c, records)[i]
    ensures |Lines(Encodings(c, records)) + partial| <= MAX_JOURNAL
  {
    hide Lines;
    var lines := Encodings(c, records);
    forall i | 0 <= i < |lines| ensures NEWLINE !in lines[i] && |lines[i]| < MAX_RECORD {
      assert c.decode(c.encode(records[i])) == Some(records[i]);
      assert Chained(c, records, i);
    }
    LinesBound(lines);
  }

  /** Every prefix of a journal with at least one whole line reads back as its
      last whole record; it has an incomplete tail exactly when it ends inside
      the next record. */
  lemma PrefixReads(c: Codec, records: seq<Record>, partial: Bytes, p: Bytes) returns (whole: nat, tail: Bytes)
    requires Faithful(c) && Chain(c, records)
    requires NEWLINE !in partial && |partial| <= MAX_RECORD &&
        |records| + (if partial == [] then 0 else 1) <= MAX_RECORDS
    requires p <= Lines(Encodings(c, records)) + partial && NEWLINE in p
    ensures 1 <= whole <= |records| && p == Lines(Encodings(c, records[..whole])) + tail
    ensures NEWLINE !in tail && tail <= (if whole < |records| then c.encode(records[whole]) else partial)
    ensures ReadJournal(c, p) == Recovered(records[whole - 1].snapshot, tail != [])
  {
    hide ReadJournal, Chain, Faithful, Lines;
    ChainFits(c, records, partial);
    whole, tail := Cut(Encodings(c, records), partial, p);
    assert Encodings(c, records)[..whole] == Encodings(c, records[..whole]);
    LinesNone(c, records, tail);
    ChainPrefix(c, records, whole);
    ChainReads(c, records[..whole], tail);
  }

  lemma LinesNone(c: Codec, records: seq<Record>, tail: Bytes)
    ensures Lines(Encodings(c, records[..0])) + tail == tail
  {
  }

  lemma LatestIs(records: seq<Record>)
    ensures records != [] ==> Latest(records) == Some(records[|records| - 1].snapshot)
  {
  }

  lemma EvolvesSelf(s: Snapshot)
    ensures Evolves(s, s)
  {
  }

  lemma Appended(c: Codec, records: seq<Record>, record: Record)
    requires Chain(c, records) && |c.encode(record)| < MAX_RECORD
    requires record.sequence == |records| && record.previous == Link(c, records)
    requires FieldsOk(record.snapshot) && Ordered(record.snapshot)
    requires records != [] ==> Evolves(records[|records| - 1].snapshot, record.snapshot)
    ensures Chain(c, records + [record])
    ensures Lines(Encodings(c, records + [record])) == Lines(Encodings(c, records)) + (c.encode(record) + [NEWLINE])
    ensures Link(c, records + [record]) == Some(c.digest(c.encode(record) + [NEWLINE]))
  {
    var longer := records + [record];
    assert Encodings(c, longer) == Encodings(c, records) + [c.encode(record)];
    LinesAppend(Encodings(c, records), c.encode(record));
    assert longer[..|records|] == records;
    forall i | 0 <= i < |longer| ensures Chained(c, longer, i) {
      assert longer[..i] == records[..i];
      if i < |records| {
        assert Chained(c, records, i);
      } else {
        assert records[..i] == records;
      }
    }
  }

  // ----------------------------------------------------- what a chain pins

  lemma {:induction false} Links(c: Codec, lines: seq<Bytes>, index: nat, previous: Option<Bytes>,
      prior: Option<Snapshot>, tail: Bytes, i: nat)
    requires i < |lines| && ReadFrom(c, lines, index, previous, prior, tail).Recovered?
    ensures c.decode(lines[i]).Some? && c.decode(lines[i]).value.sequence == index + i
    ensures c.decode(lines[i]).value.previous == if i == 0 then previous else Some(c.digest(lines[i - 1] + [NEWLINE]))
  {
    LineDecodes(c, lines[0], index, previous, prior);
    if i > 0 {
      Links(c, lines[1..], index + 1, Some(c.digest(lines[0] + [NEWLINE])), Some(c.decode(lines[0]).value.snapshot),
          tail, i - 1);
    }
  }

  /** With a collision-free digest the last line of a readable journal
      determines all lines before it. */
  lemma LastLinePinsJournal(c: Codec, a: seq<Bytes>, b: seq<Bytes>, s: Bytes, t: Bytes)
    requires forall x, y :: c.digest(x) == c.digest(y) ==> x == y
    requires a != [] && b != [] && a[|a| - 1] == b[|b| - 1]
    requires ReadFrom(c, a, 0, None, None, s).Recovered? && ReadFrom(c, b, 0, None, None, t).Recovered?
    ensures a == b
  {
    hide ReadFrom;
    Links(c, a, 0, None, None, s, |a| - 1);
    Links(c, b, 0, None, None, t, |b| - 1);
    SameBackwards(c, a, b, s, t, |a| - 1);
  }

  lemma {:induction false} SameBackwards(c: Codec, a: seq<Bytes>, b: seq<Bytes>, s: Bytes, t: Bytes, k: nat)
    requires forall x, y :: c.digest(x) == c.digest(y) ==> x == y
    requires |a| == |b| && k < |a| && a[k..] == b[k..]
    requires ReadFrom(c, a, 0, None, None, s).Recovered? && ReadFrom(c, b, 0, None, None, t).Recovered?
    ensures a == b
  {
    hide ReadFrom;
    if k > 0 {
      assert a[k] == a[k..][0] && b[k] == b[k..][0];
      Links(c, a, 0, None, None, s, k);
      Links(c, b, 0, None, None, t, k);
      assert a[k - 1] + [NEWLINE] == b[k - 1] + [NEWLINE];
      assert a[k - 1] == (a[k - 1] + [NEWLINE])[..|a[k - 1]|];
      assert a[k - 1..] == [a[k - 1]] + a[k..] && b[k - 1..] == [b[k - 1]] + b[k..];
      SameBackwards(c, a, b, s, t, k - 1);
    }
  }

  // ---------------------------------------------------------- the launcher

  /** What the native process may tell the launcher between two of its steps. */
  datatype Event = Exit(code: Option<nat>, signal: Option<Text>) | Close | Error

  /** What signalling the group answers: it is there, it is gone, or a failure. */
  datatype Answer = There | Gone | Denied

  datatype Signal = Term | Kill

  predicate Plausible(events: seq<Event>) {
    forall i :: 0 <= i < |events| ==> PlausibleEvent(events[i])
  }

  predicate PlausibleEvent(e: Event) {
    e.Exit? ==> (e.code.Some? ==> e.code.value <= MAX_SAFE) && (e.signal.Some? ==> SignalName(e.signal.value))
  }

  /** The answers the stop sequence gets: what happens during its k-th wait,
      what its k-th group probe and signal answer, how long it may poll, and
      how its last file operations end. */
  datatype Oracle = Oracle(
    waits: nat -> seq<Event>, probes: nat -> Answer, signals: nat -> Answer, polls: nat, inputEnds: bool,
    snapshotSame: bool, parentSame: bool, removed: bool, counts: seq<nat>, synced: bool)

  /** How much of `size` bytes write calls that take `counts` accept, up to the first failing one. */
  function Taken(counts: seq<nat>, size: nat): (n: nat)
    ensures n <= size
    decreases |counts|
  {
    if counts == [] || counts[0] == 0 then 0
    else if counts[0] >= size then size
    else counts[0] + Taken(counts[1..], size - counts[0])
  }

  lemma TakenStep(counts: seq<nat>, k: nat, size: nat)
    requires k < |counts| && counts[k] > 0
    ensures counts[k] >= size ==> Taken(counts[k..], size) == size
    ensures counts[k] < size ==> Taken(counts[k..], size) == counts[k] + Taken(counts[k + 1..], size - counts[k])
  {
    assert counts[k..][1..] == counts[k + 1..];
  }

  lemma TakenNothing(counts: seq<nat>, size: nat)
    ensures counts[0..] == counts
    ensures forall k :: 0 <= k <= |counts| && (k == |counts| || counts[k] == 0) ==> Taken(counts[k..], size) == 0
  {
  }

  /** What the events of one wait leave behind, whatever their order. */
  predicate Exited(s: Snapshot, events: seq<Event>) {
    exists i :: 0 <= i < |events| && (events[i].Exit? || (events[i].Error? && s.pid.None?))
  }

  predicate Closed(events: seq<Event>) {
    exists i :: 0 <= i < |events| && events[i].Close?
  }

  predicate Broken(events: seq<Event>) {
    exists i :: 0 <= i < |events| && events[i].Error?
  }

  /** The process leads a group of its own, so the group may be signalled and probed. */
  predicate OwnGroup(s: Snapshot) {
    s.pid.Some? && s.pgid == s.pid
  }

  /** There is nothing left that a signal could be sent to. */
  predicate Ended(s: Snapshot) {
    s.rootExited && (s.groupAbsent || !OwnGroup(s))
  }

  /** A signal to terminate goes before one to kill, each at most once. */
  predicate Escalates(before: seq<Signal>, after: seq<Signal>) {
    after == before || after == before + [Term] || after == before + [Term, Kill]
  }

  /** The answer lets the polling go on: the group is there, or the failure
      found no room among the errors. */
  predicate Undecided(answer: Answer, errors: seq<ErrorCode>) {
    answer == There || (answer == Denied && |errors| >= MAX_ERRORS)
  }

  function Upto(before: seq<Signal>, rounds: nat): seq<Signal> {
    if rounds == 0 then before else if rounds == 1 then before + [Term] else before + [Term, Kill]
  }

  predicate Noted(errors: seq<ErrorCode>, operation: ErrorCode) {
    operation in errors || |errors| >= MAX_ERRORS
  }

  /** The process, its group and its streams are known to have ended. */
  predicate Proven(s: Snapshot) {
    s.rootExited && s.groupAbsent && s.stdioJoined
  }

  predicate Clean(s: Snapshot) {
    Proven(s) && s.runtimeErrors == s.cleanupErrors == []
  }

  /** The process exits when its input ends, without an error, and its own
      group is seen to be gone at the first probe. */
  predicate EndsByItself(s: Snapshot, o: Oracle) {
    && OwnGroup(s) && o.inputEnds && !Broken(o.waits(0)) && !Broken(o.waits(1)) && o.probes(1) == Gone
    && (s.rootExited || Exited(s, o.waits(0)) || Exited(s, o.waits(1)))
  }

  class Launcher {
    const codec: Codec
    var value: Snapshot
    var open: bool
    var sequence: nat
    var previous: Option<Bytes>
    var failed: bool
    var file: Bytes
    /** The records wholly in the file, and the part of another one after them. */
    ghost var records: seq<Record>
    ghost var partial: Bytes
    /** The signals sent to the process or its group. */
    ghost var signalled: seq<Signal>

    ghost predicate Valid()
      reads this
    {
      && Faithful(codec) && Chain(codec, records)
      && file == Lines(Encodings(codec, records)) + partial
      && NEWLINE !in partial && |partial| <= MAX_RECORD && |records| + (if partial == [] then 0 else 1) <= MAX_RECORDS
      && (!failed ==> partial == [] && sequence == |records| && previous == Link(codec, records))
      && FieldsOk(value) && Ordered(value) && (records != [] ==> Evolves(records[|records| - 1].snapshot, value))
      && (value.pid.None? ==> value.pgid.None?)
    }

    constructor (codec: Codec, binding: Binding)
      requires Faithful(codec) && BindingOk(binding)
      ensures Valid() && file == [] && records == [] && !failed && open && this.codec == codec
      ensures value == Snapshot(binding, None, None, false, false, false, true, None, None, [], [])
    {
      this.codec := codec;
      value := Snapshot(binding, None, None, false, false, false, true, None, None, [], []);
      open, sequence, previous, failed, file, records, partial, signalled := true, 0, None, false, [], [], [], [];
    }

    /** The write loop: `counts` is how much each call takes, nothing when it fails. */
    method Append(bytes: Bytes, counts: seq<nat>) returns (written: nat)
      modifies this`file
      ensures written <= |bytes| && file == old(file) + bytes[..written]
      ensures bytes != [] ==> written == Taken(counts, |bytes|)
    {
      hide Taken;
      TakenNothing(counts, |bytes|);
      var calls := 0;
      written := 0;
      while written < |bytes| && calls < |counts| && counts[calls] > 0
        invariant written <= |bytes| && calls <= |counts| && file == old(file) + bytes[..written]
        invariant 0 < |bytes| == written ==> Taken(counts, |bytes|) == written
        invariant written < |bytes| ==> Taken(counts, |bytes|) == written + Taken(counts[calls..], |bytes| - written)
      {
        TakenStep(counts, calls, |bytes| - written);
        var count := if counts[calls] < |bytes| - written then counts[calls] else |bytes| - written;
        assert bytes[..written + count] == bytes[..written] + bytes[written..written + count];
        file := file + bytes[written..written + count];
        written, calls := written + count, calls + 1;
      }
      if written < |bytes| {
        TakenNothing(counts, |bytes| - written);
      }
    }

    /** The journal is open and sound, a record of `s` fits, and the write
        calls and the sync take all of it. */
    ghost predicate Persists(s: Snapshot, counts: seq<nat>, synced: bool)
      reads this
    {
      var size := |codec.encode(Record(sequence, previous, s))| + 1;
      open && !failed && sequence < MAX_RECORDS && size <= MAX_RECORD && Taken(counts, size) == size && synced
    }

    /** Writes the current value as the next record. `counts` is how much each
        write call takes, nothing when it fails; `synced` is the outcome of the
        sync. The file only grows, and by a part of that one line. */
    method Persist(counts: seq<nat>, synced: bool) returns (ok: bool)
      requires Valid()
      modifies this`sequence, this`previous, this`failed, this`file, this`records, this`partial
      ensures Valid() && old(file) <= file && old(records) <= records
      ensures ok ==> records == old(records) + [Record(old(sequence), old(previous), value)] && !failed
      ensures ok <==> old(Persists(value, counts, synced))
      ensures !ok && open && !old(failed) && old(sequence) < MAX_RECORDS ==> failed
      ensures old(failed) ==> !ok && failed && file == old(file)
    {
      hide Chain, Lines, Link, Encodings, FieldsOk, Ordered, Evolves, Faithful;
      if !open || failed || sequence >= MAX_RECORDS {
        return false;
      }
      var record := Record(sequence, previous, value);
      var encoded := codec.encode(record) + [NEWLINE];
      RecordPlain(codec, record);
      if |encoded| > MAX_RECORD {
        failed := true;
        return false;
      }
      var written := Append(encoded, counts);
      if written < |encoded| {
        failed := true;
        partial := encoded[..written];
        return false;
      }
      assert encoded[..written] == encoded;
      Appended(codec, records, record);
      EvolvesSelf(value);
      records := records + [record];
      if !synced {
        failed := true;
        return false;
      }
      previous, sequence := Some(codec.digest(encoded)), sequence + 1;
      ok := true;
    }

    /** Reading back any prefix with a whole line gives a snapshot that was
        written, and tells whether the prefix was cut inside a record. */
    method ReadBack(cut: nat) returns (r: Reading)
      requires Valid() && cut <= |file| && NEWLINE in file[..cut]
      ensures r.Recovered?
      ensures exists whole: nat, tail: Bytes ::
                && 1 <= whole <= |records| && file[..cut] == Lines(Encodings(codec, records[..whole])) + tail &&
                    NEWLINE !in tail
                && r == Recovered(records[whole - 1].snapshot, tail != [])
    {
      hide Chain, ReadJournal, Lines, Encodings, Faithful, FieldsOk, Ordered, Evolves;
      r := ParseCustodyJournal(codec, file[..cut]);
      ghost var whole, tail := PrefixReads(codec, records, partial, file[..cut]);
    }

    // ------------------------------------------------ errors and events

    lemma Facts()
      requires Valid()
      ensures FieldsOk(value) && Ordered(value) && (value.pid.None? ==> value.pgid.None?)
    {
      hide Chain, Lines, Link, Encodings, Faithful, FieldsOk, Ordered, Evolves;
    }

    /** The value may become any sound successor of itself. */
    method Become(next: Snapshot)
      requires Valid() && FieldsOk(next) && Ordered(next) && Evolves(value, next)
      requires next.pid.None? ==> next.pgid.None?
      modifies this`value
      ensures Valid() && value == next
    {
      hide Chain, Lines, Link, Encodings, Faithful, FieldsOk, Ordered;
      value := next;
    }

    method Failure(operation: ErrorCode)
      requires Valid()
      modifies this`value
      ensures Valid() && Evolves(old(value), value)
      ensures value == old(value).(cleanupErrors := value.cleanupErrors)
      ensures value.cleanupErrors != [] && old(value.cleanupErrors) <= value.cleanupErrors
      ensures Noted(value.cleanupErrors, operation)
    {
      hide Chain, Lines, Link, Encodings, Faithful;
      if operation !in value.cleanupErrors && |value.cleanupErrors| < MAX_ERRORS {
        value := value.(cleanupErrors := value.cleanupErrors + [operation]);
      }
    }

    method RuntimeFailure(operation: ErrorCode)
      requires Valid()
      modifies this`value
      ensures Valid() && Evolves(old(value), value)
      ensures value == old(value).(runtimeErrors := value.runtimeErrors)
      ensures value.runtimeErrors != [] && old(value.runtimeErrors) <= value.runtimeErrors
      ensures Noted(value.runtimeErrors, operation)
    {
      hide Chain, Lines, Link, Encodings, Faithful;
      if operation !in value.runtimeErrors && |value.runtimeErrors| < MAX_ERRORS {
        value := value.(runtimeErrors := value.runtimeErrors + [operation]);
      }
    }

    method OnEvent(e: Event)
      requires Valid() && PlausibleEvent(e)
      modifies this`value
      ensures Valid() && Evolves(old(value), value)
      ensures value.pid == old(value.pid) && value.pgid == old(value.pgid) &&
          value.scratchRetained == old(value.scratchRetained)
      ensures value.cleanupErrors == old(value.cleanupErrors) && old(value.runtimeErrors) <= value.runtimeErrors
      ensures value.rootExited <==> old(value.rootExited) || Exited(value, [e])
      ensures value.stdioJoined <==> old(value.stdioJoined) || e.Close?
      ensures value.groupAbsent <==> old(value.groupAbsent) || (e.Error? && value.pid.None?)
      ensures e.Exit? ==> value.exitCode == e.code && value.exitSignal == e.signal
      ensures !e.Exit? ==> value.exitCode == old(value.exitCode) && value.exitSignal == old(value.exitSignal)
      ensures if e.Error? then Noted(value.runtimeErrors, SpawnError)
              else value.runtimeErrors == old(value.runtimeErrors)
    {
      hide Valid, BindingOk, SignalName, Noted;
      assert [e][0] == e;
      Facts();
      match e {
        case Exit(code, signal) => Become(value.(rootExited := true, exitCode := code, exitSignal := signal));
        case Close => Become(value.(stdioJoined := true));
        case Error =>
          RuntimeFailure(SpawnError);
          if value.pid.None? {
            Facts();
            Become(value.(rootExited := true, groupAbsent := true));
          }
      }
    }

    /** Whatever the process reports while the launcher waits. */
    method Happen(events: seq<Event>)
      requires Valid() && Plausible(events)
      modifies this`value
      ensures Valid() && Evolves(old(value), value)
      ensures value.pid == old(value.pid) && value.pgid == old(value.pgid) &&
          value.scratchRetained == old(value.scratchRetained)
      ensures value.cleanupErrors == old(value.cleanupErrors) && old(value.runtimeErrors) <= value.runtimeErrors
      ensures value.rootExited <==> old(value.rootExited) || Exited(value, events)
      ensures value.stdioJoined <==> old(value.stdioJoined) || Closed(events)
      ensures value.groupAbsent <==> old(value.groupAbsent) || (Broken(events) && value.pid.None?)
      ensures if Broken(events) then Noted(value.runtimeErrors, SpawnError)
              else value.runtimeErrors == old(value.runtimeErrors)
    {
      hide Valid, PlausibleEvent, Exited, Closed, Broken, Evolves, Noted;
      assert Evolves(value, value) by {
        EvolvesSelf(value);
      }
      NothingHeard(value);
      var i := 0;
      while i < |events|
        invariant 0 <= i <= |events| && Valid() && Evolves(old(value), value)
        invariant value.pid == old(value.pid) && value.pgid == old(value.pgid) &&
            value.scratchRetained == old(value.scratchRetained)
        invariant value.cleanupErrors == old(value.cleanupErrors) && old(value.runtimeErrors) <= value.runtimeErrors
        invariant value.rootExited <==> old(value.rootExited) || Exited(value, events[..i])
        invariant value.stdioJoined <==> old(value.stdioJoined) || Closed(events[..i])
        invariant value.groupAbsent <==> old(value.groupAbsent) || (Broken(events[..i]) && value.pid.None?)
        invariant if Broken(events[..i]) then Noted(value.runtimeErrors, SpawnError)
                  else value.runtimeErrors == old(value.runtimeErrors)
      {
        ghost var before := value;
        OnEvent(events[i]);
        EvolvesOn(old(value), before, value);
        HeardMore(value, events, i);
        NotedStays(before.runtimeErrors, value.runtimeErrors, SpawnError);
        ExitedOf(before, value, events[..i]);
        i := i + 1;
      }
      assert events[..i] == events;
    }

    static lemma NothingHeard(s: Snapshot)
      ensures !Exited(s, []) && !Closed([]) && !Broken([])
    {
    }

    static lemma HeardMore(s: Snapshot, events: seq<Event>, i: nat)
      requires i < |events|
      ensures Exited(s, events[..i + 1]) <==> Exited(s, events[..i]) || Exited(s, [events[i]])
      ensures Closed(events[..i + 1]) <==> Closed(events[..i]) || events[i].Close?
      ensures Broken(events[..i + 1]) <==> Broken(events[..i]) || events[i].Error?
    {
      var e, front, longer := events[i], events[..i], events[..i + 1];
      assert forall k :: 0 <= k < i ==> longer[k] == front[k];
      assert longer[i] == e == [e][0];
    }

    static lemma NotedStays(a: seq<ErrorCode>, b: seq<ErrorCode>, operation: ErrorCode)
      requires a <= b
      ensures Noted(a, operation) ==> Noted(b, operation)
    {
      if operation in a {
        var i :| 0 <= i < |a| && a[i] == operation;
        assert b[i] == operation;
      }
    }

    static lemma ExitedOf(a: Snapshot, b: Snapshot, events: seq<Event>)
      requires a.pid == b.pid
      ensures Exited(a, events) <==> Exited(b, events)
    {
    }

    static lemma EvolvesOn(a: Snapshot, b: Snapshot, c: Snapshot)
      requires Evolves(a, b) && Evolves(b, c)
      ensures Evolves(a, c)
    {
    }

    /** The child is known; the first record has been written before it. */
    method Spawned(pid: Option<nat>, counts: seq<nat>, synced: bool)
      requires Valid() && ProcessId(pid) && value.pid.None?
      modifies this
      ensures Valid() && Evolves(old(value), value) && value.pid == pid && old(file) <= file
      ensures value == old(value).(pid := pid, cleanupErrors := value.cleanupErrors)
      ensures if old(Persists(value.(pid := pid), counts, synced))
              then records == old(records) + [Record(old(sequence), old(previous), value)]
              else Noted(value.cleanupErrors, InitialWrite)
    {
      hide Valid, Noted, BindingOk;
      Facts();
      Become(value.(pid := pid));
      var ok := Persist(counts, synced);
      if !ok {
        Failure(InitialWrite);
      }
    }

    /** Looks up the process group and records it; without errors so far and
        only for a known process. */
    method Ready(group: Option<nat>, counts: seq<nat>, synced: bool) returns (ok: bool)
      requires Valid() && ProcessId(group) && value.pgid.None?
      modifies this
      ensures Valid() && Evolves(old(value), value) && old(file) <= file
      ensures ok ==> OwnGroup(value) && Latest(records) == Some(value)
      ensures ok <==>
                && old(value.runtimeErrors == value.cleanupErrors == [] && value.pid.Some?) && group == value.pid
                && old(Persists(value.(pgid := group), counts, synced))
      ensures !ok ==> Noted(value.runtimeErrors, Startup)
    {
      hide Valid, Noted, BindingOk, Latest;
      Facts();
      if value.cleanupErrors != [] || value.runtimeErrors != [] || value.pid.None? {
        RuntimeFailure(Startup);
        return false;
      }
      Become(value.(pgid := group));
      ok := Persist(counts, synced);
      LatestIs(records);
      ok := ok && value.pgid == value.pid;
      if !ok {
        RuntimeFailure(Startup);
      }
    }

    /** Asks whether the group is gone, never again once it is known to be. */
    method ObserveAbsent(answer: Answer) returns (absent: bool)
      requires Valid() && (value.groupAbsent ==> value.pid.None?)
      modifies this`value
      ensures Valid() && Evolves(old(value), value) && absent == (value.rootExited && value.groupAbsent)
      ensures value.groupAbsent && !old(value.groupAbsent) ==>
                answer == Gone && value.rootExited && value.pid.Some? && value.pgid == value.pid
      ensures value == old(value).(groupAbsent := value.groupAbsent, cleanupErrors := value.cleanupErrors)
      ensures old(value.cleanupErrors) <= value.cleanupErrors
      ensures value.rootExited && OwnGroup(value) && answer != Denied ==>
                value.groupAbsent == (answer == Gone) && value.cleanupErrors == old(value.cleanupErrors)
      ensures value.rootExited && !(OwnGroup(value) && answer != Denied) ==>
                value.groupAbsent == old(value.groupAbsent) && Noted(value.cleanupErrors, GroupAbsenceUnproven)
    {
      hide Chain, Lines, Link, Encodings, Faithful, BindingOk;
      if !value.rootExited {
        return false;
      }
      if value.pid.None? || value.pgid != value.pid || answer == Denied {
        Failure(GroupAbsenceUnproven);
      } else {
        value := value.(groupAbsent := answer == Gone);
      }
      absent := value.groupAbsent;
    }

    /** The waiting loop of the stop: probe until the group is gone, time is up
        or the probe itself has failed. */
    method PollAbsent(o: Oracle, from: nat) returns (next: nat)
      requires Valid() && (value.groupAbsent ==> value.pid.None?) && forall k :: Plausible(o.waits(k))
      modifies this`value
      ensures Valid() && Evolves(old(value), value) && value.scratchRetained == old(value.scratchRetained)
      ensures value.pid == old(value.pid) && value.pgid == old(value.pgid)
      ensures old(value.cleanupErrors) <= value.cleanupErrors && next <= from + o.polls
      ensures old(value.rootExited) && OwnGroup(value) ==>
                && (forall k :: from <= k < next ==> Undecided(o.probes(k), value.cleanupErrors))
                && value.groupAbsent == (o.probes(next) == Gone)
                && (o.probes(next) != Gone ==>
                      next == from + o.polls || GroupAbsenceUnproven in value.cleanupErrors)
    {
      hide Chain, Lines, Link, Encodings, Faithful, FieldsOk;
      next := from;
      var absent := ObserveAbsent(o.probes(next));
      while !absent && next < from + o.polls && GroupAbsenceUnproven !in value.cleanupErrors
        invariant Valid() && Evolves(old(value), value) && value.scratchRetained == old(value.scratchRetained)
        invariant value.pid == old(value.pid) && value.pgid == old(value.pgid)
        invariant old(value.cleanupErrors) <= value.cleanupErrors && from <= next <= from + o.polls
        invariant !absent ==> (value.groupAbsent ==> value.pid.None?)
        invariant old(value.rootExited) && OwnGroup(value) ==>
          && (forall k :: from <= k < next ==> Undecided(o.probes(k), value.cleanupErrors))
          && absent == value.groupAbsent == (o.probes(next) == Gone)
          && (o.probes(next) == Denied ==> Noted(value.cleanupErrors, GroupAbsenceUnproven))
      {
        Happen(o.waits(next));
        next := next + 1;
        absent := ObserveAbsent(o.probes(next));
      }
    }

    /** At most two rounds of signalling, each ended by a look at the group. */
    method SignalRounds(o: Oracle)
      requires Valid() && forall k :: Plausible(o.waits(k))
      modifies this`value, this`signalled
      ensures Valid() && Evolves(old(value), value) && value.scratchRetained == old(value.scratchRetained)
      ensures value.pid == old(value.pid) && value.pgid == old(value.pgid)
      ensures old(value.cleanupErrors) <= value.cleanupErrors
      ensures Escalates(old(signalled), signalled)
      ensures Ended(value) || signalled == old(signalled) + [Term, Kill]
      ensures old(value.rootExited && (value.groupAbsent || (OwnGroup(value) && o.probes(1) == Gone))) ==>
                value == old(value).(groupAbsent := true) && signalled == old(signalled)
    {
      hide Chain, Lines, Link, Encodings, Faithful, FieldsOk;
      var round, clock := 0, 1;
      while round < 2
        invariant 0 <= round <= 2
        invariant Valid() && Evolves(old(value), value) && value.scratchRetained == old(value.scratchRetained)
        invariant value.pid == old(value.pid) && value.pgid == old(value.pgid)
        invariant old(value.cleanupErrors) <= value.cleanupErrors
        invariant Escalates(old(signalled), signalled)
        invariant Ended(value) || signalled == Upto(old(signalled), round)
        invariant round == 0 ==> value == old(value) && signalled == old(signalled) && clock == 1
        invariant round > 0 ==>
                    !old(value.rootExited && (value.groupAbsent || (OwnGroup(value) && o.probes(1) == Gone)))
      {
        if value.rootExited {
          if value.groupAbsent {
            return;
          }
          var gone := ObserveAbsent(o.probes(clock));
          if gone {
            return;
          }
        }
        SendSignal(round, o.signals(round));
        clock := AwaitEnd(o, clock);
        round := round + 1;
      }
      if value.rootExited && value.pgid == value.pid && !value.groupAbsent {
        var gone := ObserveAbsent(o.probes(clock));
      }
    }

    /** To the group when it is known to be the process's own, else to a process still running. */
    method SendSignal(round: nat, answer: Answer)
      requires Valid() && round < 2
      modifies this`value, this`signalled
      ensures Valid() && Evolves(old(value), value)
      ensures value == old(value).(cleanupErrors := value.cleanupErrors)
      ensures signalled ==
        if value.rootExited && !OwnGroup(value) then old(signalled)
        else old(signalled) + [if round == 0 then Term else Kill]
      ensures old(value.cleanupErrors) <= value.cleanupErrors
      ensures if OwnGroup(value) && answer == Denied
              then Noted(value.cleanupErrors, if round == 0 then SignalTerm else SignalKill)
              else value.cleanupErrors == old(value.cleanupErrors)
    {
      hide Chain, Lines, Link, Encodings, Faithful, FieldsOk;
      if OwnGroup(value) {
        signalled := signalled + [if round == 0 then Term else Kill];
        if answer == Denied {
          Failure(if round == 0 then SignalTerm else SignalKill);
        }
      } else if !value.rootExited {
        signalled := signalled + [if round == 0 then Term else Kill];
      }
    }

    /** The waits after one signal: for the exit, then for the group. */
    method AwaitEnd(o: Oracle, clock: nat) returns (next: nat)
      requires Valid() && (value.groupAbsent ==> value.pid.None?) && forall k :: Plausible(o.waits(k))
      modifies this`value
      ensures Valid() && Evolves(old(value), value) && value.scratchRetained == old(value.scratchRetained)
      ensures value.pid == old(value.pid) && value.pgid == old(value.pgid)
      ensures old(value.cleanupErrors) <= value.cleanupErrors
    {
      hide Valid, Plausible, Evolves;
      EvolvesSelf(value);
      next := clock;
      if !value.rootExited {
        Happen(o.waits(next));
      }
      if value.rootExited && value.pgid == value.pid {
        ghost var before := value;
        next := PollAbsent(o, next + 1);
        EvolvesOn(old(value), before, value);
      }
      next := next + 1;
    }

    /** The end of the input, the signals, and an error unless the process is gone. */
    method StopProcess(o: Oracle)
      requires Valid() && forall k :: Plausible(o.waits(k))
      modifies this`value, this`signalled
      ensures Valid() && Evolves(old(value), value) && value.scratchRetained == old(value.scratchRetained)
      ensures !value.rootExited || !value.groupAbsent ==>
                value.cleanupErrors != [] && Noted(value.cleanupErrors, CustodyUnproven)
      ensures !o.inputEnds ==> Noted(value.cleanupErrors, StdinClose)
      ensures Escalates(old(signalled), signalled)
      ensures Ended(value) || signalled == old(signalled) + [Term, Kill]
      ensures old(EndsByItself(value, o)) ==> signalled == old(signalled) && value.rootExited && value.groupAbsent
      ensures old(EndsByItself(value, o)) ==>
                value.cleanupErrors == old(value.cleanupErrors) && value.runtimeErrors == old(value.runtimeErrors)
      ensures Closed(o.waits(0)) ==> value.stdioJoined
      ensures value.pid == old(value.pid) && value.pgid == old(value.pgid)
    {
      hide Valid, Plausible;
      Happen(o.waits(0));
      if !o.inputEnds {
        Failure(StdinClose);
      }
      if !value.rootExited {
        Happen(o.waits(1));
      }
      SignalRounds(o);
      if !value.rootExited || !value.groupAbsent {
        Failure(CustodyUnproven);
      }
    }

    /** The join of the streams never takes an error or a proof back. */
    method JoinStreams(o: Oracle)
      requires Valid() && Plausible(o.waits(2))
      modifies this`value
      ensures Valid() && Evolves(old(value), value) && value.scratchRetained == old(value.scratchRetained)
      ensures old(value.cleanupErrors) <= value.cleanupErrors
      ensures value.stdioJoined <==> old(value.stdioJoined) || Closed(o.waits(2))
      ensures value.stdioJoined && !Broken(o.waits(2)) ==>
                value.cleanupErrors == old(value.cleanupErrors) && value.runtimeErrors == old(value.runtimeErrors)
      ensures value.pid == old(value.pid) && value.pgid == old(value.pgid)
      ensures !value.stdioJoined ==> Noted(value.cleanupErrors, StreamCustodyUnproven)
    {
      hide Valid, Plausible, Closed, Broken, Exited;
      if !value.stdioJoined {
        Happen(o.waits(2));
        if !value.stdioJoined {
          Failure(StreamCustodyUnproven);
        }
      }
    }

    /** Nothing has failed, nothing fails, and the streams close. */
    ghost predicate CleanStop(o: Oracle)
      reads this
    {
      && EndsByItself(value, o) && value.runtimeErrors == value.cleanupErrors == [] && !Broken(o.waits(2))
      && (value.stdioJoined || Closed(o.waits(0)) || Closed(o.waits(2))) && o.snapshotSame && o.parentSame
    }

    /** The single stop: signal, join, drop the scratch directory only on a
        complete and clean proof, and write the last record. */
    method StopAndJoin(o: Oracle) returns (receipt: Snapshot)
      requires Valid() && forall k :: Plausible(o.waits(k))
      modifies this
      ensures Escalates(old(signalled), signalled)
      ensures Latest(records) == Some(receipt) || Noted(receipt.cleanupErrors, FinalWrite)
      ensures Ended(receipt) || signalled == old(signalled) + [Term, Kill]
      ensures old(CleanStop(o)) ==> receipt.rootExited && receipt.groupAbsent && receipt.stdioJoined
      ensures old(CleanStop(o)) && o.removed ==> !receipt.scratchRetained && signalled == old(signalled)
      ensures old(CleanStop(o)) && !o.removed ==> Noted(receipt.cleanupErrors, ScratchRemoval)
      ensures old(CleanStop(o)) && o.removed && old(Persists(receipt.(cleanupErrors := []), o.counts, o.synced)) ==>
                receipt.cleanupErrors == receipt.runtimeErrors == [] &&
                records == old(records) + [Record(old(sequence), old(previous), receipt)]
      ensures Valid() && Evolves(old(value), value) && old(file) <= file && !open && receipt == value
      ensures old(value.scratchRetained) && !value.scratchRetained ==>
                value.rootExited && value.groupAbsent && value.stdioJoined && value.runtimeErrors == []
      ensures !value.rootExited || !value.groupAbsent ==> value.cleanupErrors != []
    {
      hide Valid, Plausible;
      StopProcess(o);
      JoinStreams(o);
      Conclude(o);
      receipt := value;
    }

    method Finish(counts: seq<nat>, synced: bool)
      requires Valid()
      modifies this
      ensures Valid() && Evolves(old(value), value) && old(file) <= file && !open && signalled == old(signalled)
      ensures value == old(value).(cleanupErrors := value.cleanupErrors) &&
          old(value.cleanupErrors) <= value.cleanupErrors
      ensures old(Persists(value, counts, synced)) ==>
                value == old(value) && records == old(records) + [Record(old(sequence), old(previous), value)]
      ensures !old(Persists(value, counts, synced)) ==> Noted(value.cleanupErrors, FinalWrite)
    {
      hide Chain, Lines, Link, Encodings, Faithful, FieldsOk, Ordered, Noted;
      var ok := Persist(counts, synced);
      if !ok {
        Failure(FinalWrite);
      }
      open := false;
    }

    method Conclude(o: Oracle)
      requires Valid() && (!value.rootExited || !value.groupAbsent ==> value.cleanupErrors != [])
      modifies this
      ensures Valid() && Evolves(old(value), value) && old(file) <= file && !open && signalled == old(signalled)
      ensures old(value.scratchRetained) && !value.scratchRetained ==>
                value.rootExited && value.groupAbsent && value.stdioJoined && value.runtimeErrors == []
      ensures !value.rootExited || !value.groupAbsent ==> value.cleanupErrors != []
      ensures value == old(value).(scratchRetained := value.scratchRetained, runtimeErrors := value.runtimeErrors,
                cleanupErrors := value.cleanupErrors)
      ensures old(Proven(value)) && !o.snapshotSame ==> Noted(value.cleanupErrors, SnapshotDrift)
      ensures old(Proven(value)) && !o.parentSame ==> Noted(value.runtimeErrors, ParentDrift)
      ensures if old(Clean(value)) && o.snapshotSame && o.parentSame && o.removed then !value.scratchRetained
              else value.scratchRetained == old(value.scratchRetained)
      ensures old(Clean(value)) && o.snapshotSame && o.parentSame && !o.removed ==>
                Noted(value.cleanupErrors, ScratchRemoval)
      ensures o.parentSame || !old(Proven(value)) ==> value.runtimeErrors == old(value.runtimeErrors)
      ensures old(Clean(value)) && o.snapshotSame && o.parentSame && o.removed ==>
                old(Persists(value.(scratchRetained := false), o.counts, o.synced)) ==>
                  value == old(value).(scratchRetained := false) &&
                  records == old(records) + [Record(old(sequence), old(previous), value)]
      ensures Latest(records) == Some(value) || Noted(value.cleanupErrors, FinalWrite)
    {
      hide Valid, BindingOk, Latest;
      Facts();
      var proven := Proven(value);
      if proven {
        if !o.snapshotSame {
          Failure(SnapshotDrift);
        }
        if !o.parentSame {
          RuntimeFailure(ParentDrift);
        }
      }
      if value.cleanupErrors == [] && value.runtimeErrors == [] && proven {
        if o.removed {
          Facts();
          Become(value.(scratchRetained := false));
        } else {
          Failure(ScratchRemoval);
        }
      }
      Finish(o.counts, o.synced);
      LatestIs(records);
    }
  }
}

/** Byte streams cut into lines. */
module ByteLines {
  type Byte = b: int | 0 <= b < 256

  type Bytes = seq<Byte>

  const NEWLINE: Byte := 10

  /** The pieces between line feeds, the last one after the last line feed. */
  function Split(t: Bytes): (lines: seq<Bytes>)
    ensures lines != []
  {
    if t == [] then [[]]
    else
      var rest := Split(t[1..]);
      if t[0] == NEWLINE then [[]] + rest else [[t[0]] + rest[0]] + rest[1..]
  }

  function Lines(lines: seq<Bytes>): Bytes {
    if lines == [] then [] else lines[0] + [NEWLINE] + Lines(lines[1..])
  }

  lemma {:induction false} SplitLine(line: Bytes, rest: Bytes)
    requires NEWLINE !in line
    ensures Split(line + [NEWLINE] + rest) == [line] + Split(rest)
  {
    var t := line + [NEWLINE] + rest;
    if line == [] {
      assert t[1..] == rest;
    } else {
      SplitLine(line[1..], rest);
      assert t[1..] == line[1..] + [NEWLINE] + rest;
      assert [line[0]] + line[1..] == line;
    }
  }

  lemma {:induction false} SplitTail(tail: Bytes)
    requires NEWLINE !in tail
    ensures Split(tail) == [tail]
  {
    if tail != [] {
      SplitTail(tail[1..]);
      assert [tail[0]] + tail[1..] == tail;
    }
  }

  lemma {:induction false} SplitLines(lines: seq<Bytes>, tail: Bytes)
    requires NEWLINE !in tail && forall i :: 0 <= i < |lines| ==> NEWLINE !in lines[i]
    ensures Split(Lines(lines) + tail) == lines + [tail]
  {
    if lines == [] {
      SplitTail(tail);
      assert Lines(lines) + tail == tail;
    } else {
      SplitLines(lines[1..], tail);
      SplitLine(lines[0], Lines(lines[1..]) + tail);
      assert Lines(lines) + tail == lines[0] + [NEWLINE] + (Lines(lines[1..]) + tail);
      assert [lines[0]] + (lines[1..] + [tail]) == lines + [tail];
    }
  }

  lemma {:induction false} LinesAppend(lines: seq<Bytes>, line: Bytes)
    ensures Lines(lines + [line]) == Lines(lines) + (line + [NEWLINE])
  {
    if lines == [] {
      assert lines + [line] == [line];
      assert [line][1..] == [];
      assert Lines([line]) == line + [NEWLINE] + Lines([]);
    } else {
      LinesAppend(lines[1..], line);
      assert (lines + [line])[1..] == lines[1..] + [line];
      assert Lines(lines + [line]) == lines[0] + [NEWLINE] + (Lines(lines[1..]) + (line + [NEWLINE]));
    }
  }

  /** Where a prefix of lines and a rest ends: after `whole` lines and inside the next. */
  lemma {:induction false} Cut(lines: seq<Bytes>, partial: Bytes, p: Bytes) returns (whole: nat, tail: Bytes)
    requires p <= Lines(lines) + partial
    requires NEWLINE !in partial && forall i :: 0 <= i < |lines| ==> NEWLINE !in lines[i]
    ensures whole <= |lines| && p == Lines(lines[..whole]) + tail && NEWLINE !in tail
    ensures tail <= if whole < |lines| then lines[whole] else partial
  {
    if lines == [] {
      whole, tail := 0, p;
      assert Lines(lines) + partial == partial;
      assert Lines(lines[..0]) + p == p;
      assert tail <= partial;
    } else if |p| <= |lines[0]| {
      whole, tail := 0, p;
      var t := Lines(lines) + partial;
      assert t[..|lines[0]|] == lines[0];
      assert p == lines[0][..|p|];
      assert Lines(lines[..0]) + p == p;
    } else {
      var first := lines[0] + [NEWLINE];
      var t := Lines(lines[1..]) + partial;
      assert Lines(lines) + partial == first + t;
      assert p[|first|..] == t[..|p| - |first|];
      whole, tail := Cut(lines[1..], partial, p[|first|..]);
      whole := whole + 1;
      assert lines[..whole][1..] == lines[1..][..whole - 1];
      assert p == first + p[|first|..];
      assert Lines(lines[..whole]) == first + Lines(lines[1..][..whole - 1]);
    }
  }

  function Front(pieces: seq<Bytes>): seq<Bytes>
    requires pieces != []
  {
    pieces[..|pieces| - 1]
  }

  function Last(pieces: seq<Bytes>): Bytes
    requires pieces != []
  {
    pieces[|pieces| - 1]
  }

  /** Two runs of pieces with the seam joined. */
  function Join(p: seq<Bytes>, q: seq<Bytes>): seq<Bytes>
    requires p != [] && q != []
  {
    Front(p) + [Last(p) + q[0]] + q[1..]
  }

  lemma JoinEmpty(first: Bytes, p: seq<Bytes>, q: seq<Bytes>)
    requires p != [] && q != []
    ensures Join([first] + p, q) == [first] + Join(p, q)
    ensures Join([[]], q) == q
  {
    assert Front([first] + p) == [first] + Front(p);
    assert [] + q[0] == q[0];
  }

  lemma JoinGrow(b: Byte, p: seq<Bytes>, q: seq<Bytes>)
    requires p != [] && q != []
    ensures Join([[b] + p[0]] + p[1..], q) == [[b] + Join(p, q)[0]] + Join(p, q)[1..]
  {
    var grown := [[b] + p[0]] + p[1..];
    if |p| == 1 {
      assert [b] + (p[0] + q[0]) == ([b] + p[0]) + q[0];
      assert Front(grown) == [] && Front(p) == [];
    } else {
      assert Front(grown) == [[b] + p[0]] + Front(p)[1..];
      assert Join(p, q)[1..] == Front(p)[1..] + [Last(p) + q[0]] + q[1..];
    }
  }

  /** Splitting is local: only the piece at the seam joins. */
  lemma {:induction false} SplitAppend(a: Bytes, b: Bytes)
    ensures Split(a + b) == Join(Split(a), Split(b))
  {
    hide Join;
    if a == [] {
      assert a + b == b;
      JoinEmpty([], Split(b), Split(b));
    } else {
      SplitAppend(a[1..], b);
      assert (a + b)[1..] == a[1..] + b;
      JoinEmpty([], Split(a[1..]), Split(b));
      JoinGrow(a[0], Split(a[1..]), Split(b));
    }
  }

  lemma AddPiece(a: Bytes, piece: Bytes)
    requires NEWLINE !in piece
    ensures Front(Split(a + piece)) == Front(Split(a)) && Last(Split(a + piece)) == Last(Split(a)) + piece
  {
    SplitAppend(a, piece);
    SplitTail(piece);
  }

  lemma AddNewline(a: Bytes)
    ensures Front(Split(a + [NEWLINE])) == Split(a) && Last(Split(a + [NEWLINE])) == []
  {
    SplitAppend(a, [NEWLINE]);
    assert Split([NEWLINE]) == [[]] + Split([]);
    assert Split(a) == Front(Split(a)) + [Last(Split(a))];
    assert Last(Split(a)) + [] == Last(Split(a));
  }

  /** The pieces hold no line feed, and written out again they are the stream. */
  lemma {:induction false} SplitBack(t: Bytes)
    ensures Lines(Front(Split(t))) + Last(Split(t)) == t
    ensures forall i :: 0 <= i < |Split(t)| ==> NEWLINE !in Split(t)[i]
  {
    hide Lines, Front, Last;
    if t == [] {
      OneLine([]);
    } else {
      SplitBack(t[1..]);
      FirstByte(t[0], Split(t[1..]));
      assert t == [t[0]] + t[1..];
    }
  }

  lemma FirstByte(b: Byte, rest: seq<Bytes>)
    requires rest != []
    ensures var all := if b == NEWLINE then [[]] + rest else [[b] + rest[0]] + rest[1..];
            Lines(Front(all)) + Last(all) == [b] + (Lines(Front(rest)) + Last(rest))
  {
    hide Lines, Front, Last;
    if b == NEWLINE {
      FirstLine([], rest);
      assert [] + [NEWLINE] == [NEWLINE];
    } else if |rest| > 1 {
      FirstLine(rest[0], rest[1..]);
      FirstLine([b] + rest[0], rest[1..]);
      assert [rest[0]] + rest[1..] == rest;
      assert [b] + rest[0] + [NEWLINE] == [b] + (rest[0] + [NEWLINE]);
    } else {
      OneLine(rest[0]);
      OneLine([b] + rest[0]);
      assert rest == [rest[0]] && [[b] + rest[0]] + rest[1..] == [[b] + rest[0]];
    }
  }

  lemma OneLine(line: Bytes)
    ensures Lines(Front([line])) + Last([line]) == line
  {
    assert Front([line]) == [];
  }

  lemma FirstLine(line: Bytes, rest: seq<Bytes>)
    requires rest != []
    ensures var all := [line] + rest;
            Lines(Front(all)) + Last(all) == line + [NEWLINE] + (Lines(Front(rest)) + Last(rest))
  {
    var all := [line] + rest;
    assert Front(all) == [line] + Front(rest);
    assert ([line] + Front(rest))[1..] == Front(rest);
  }
}

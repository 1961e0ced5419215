/** The shell's bytes as lines: whole lines are handed on, a last part waits for
    its end, and a line that is too long ends the connection. */
module Lines {
  import opened Common

  type Line = seq<Byte>

  const NEWLINE: Byte := 10
  const MAX_LINE_BYTES: nat := 4096

  datatype Error = TooLong(bytes: nat) | WithoutAnEnd

  /** What some bytes make: the lines handed on, what waits, and why the
      connection ends, if it does. */
  datatype Taken = Taken(lines: seq<Line>, waiting: seq<Byte>, error: Option<Error>)

  /** No newline among the bytes. */
  predicate Unbroken(bytes: seq<Byte>) { forall i | 0 <= i < |bytes| :: bytes[i] != NEWLINE }

  function FirstBreak(bytes: seq<Byte>): (end: Option<nat>)
    ensures end.None? <==> Unbroken(bytes)
    ensures end.Some? ==> end.value < |bytes| && bytes[end.value] == NEWLINE && Unbroken(bytes[..end.value])
  {
    if |bytes| == 0 then None
    else if bytes[0] == NEWLINE then Some(0)
    else
      match FirstBreak(bytes[1..])
      case None => None
      case Some(end) =>
        assert bytes[..end + 1] == [bytes[0]] + bytes[1..][..end];
        Some(end + 1)
  }

  function Handed(line: Line, trim: Line -> Line): seq<Line> { if trim(line) == [] then [] else [trim(line)] }

  function TakenOf(bytes: seq<Byte>, trim: Line -> Line): Taken
    decreases |bytes|
  {
    match FirstBreak(bytes)
    case None => Taken([], bytes, if |bytes| > MAX_LINE_BYTES then Some(WithoutAnEnd) else None)
    case Some(end) =>
      OneLine(bytes[..end], bytes[end + 1..], TakenOf(bytes[end + 1..], trim), trim)
  }

  /** A line, before what is made of the rest. */
  function OneLine(line: Line, rest: seq<Byte>, more: Taken, trim: Line -> Line): Taken {
    if |line| + 1 > MAX_LINE_BYTES then Taken([], rest, Some(TooLong(|line| + 1)))
    else Before(Handed(line, trim), more)
  }

  function Before(lines: seq<Line>, taken: Taken): Taken { taken.(lines := lines + taken.lines) }

  /** The bytes as they come, until one part ends the connection. */
  function TakenInTurn(waiting: seq<Byte>, chunks: seq<seq<Byte>>, trim: Line -> Line): Taken
    decreases |chunks|
  {
    if |chunks| == 0 then Taken([], waiting, None)
    else
      var first := TakenOf(waiting + chunks[0], trim);
      if first.error.Some? then first
      else
        Before(first.lines, TakenInTurn(first.waiting, chunks[1..], trim))
  }

  function Joined(chunks: seq<seq<Byte>>): seq<Byte> {
    if |chunks| == 0 then [] else chunks[0] + Joined(chunks[1..])
  }

  // ----- A stream's lines

  /** The stream cut at its newlines: the last piece has no end yet. */
  function Pieces(bytes: seq<Byte>): (pieces: seq<Line>)
    ensures |pieces| > 0
    decreases |bytes|
  {
    match FirstBreak(bytes)
    case None => [bytes]
    case Some(end) => [bytes[..end]] + Pieces(bytes[end + 1..])
  }

  function Stream(pieces: seq<Line>): seq<Byte>
    requires |pieces| > 0
  {
    if |pieces| == 1 then pieces[0] else pieces[0] + [NEWLINE] + Stream(pieces[1..])
  }

  /** Cutting a stream up loses nothing, and leaves no newline in a piece. */
  lemma {:induction false} PiecesMakeTheStream(bytes: seq<Byte>)
    ensures Stream(Pieces(bytes)) == bytes
    ensures forall i | 0 <= i < |Pieces(bytes)| :: Unbroken(Pieces(bytes)[i])
    decreases |bytes|
  {
    var end := FirstBreak(bytes);
    if end.Some? {
      PiecesMakeTheStream(bytes[end.value + 1..]);
      assert Pieces(bytes)[1..] == Pieces(bytes[end.value + 1..]);
      assert bytes == bytes[..end.value] + [NEWLINE] + bytes[end.value + 1..];
    }
  }

  lemma {:induction false} FirstBreakIs(line: Line, rest: seq<Byte>)
    requires Unbroken(line)
    ensures FirstBreak(line + [NEWLINE] + rest) == Some(|line|)
  {
    var bytes := line + [NEWLINE] + rest;
    if |line| > 0 {
      assert bytes[1..] == line[1..] + [NEWLINE] + rest;
      FirstBreakIs(line[1..], rest);
    }
  }

  /** The cut at the first newline, and what it leaves. */
  lemma CutAt(line: Line, rest: seq<Byte>)
    requires Unbroken(line)
    ensures var bytes := line + [NEWLINE] + rest;
            FirstBreak(bytes) == Some(|line|) && bytes[..|line|] == line && bytes[|line| + 1..] == rest
  {
    FirstBreakIs(line, rest);
    var bytes := line + [NEWLINE] + rest;
    assert bytes[..|line|] == line && bytes[|line| + 1..] == rest;
  }

  /** And it is the only way to cut it so. */
  lemma {:induction false} PiecesAreTheOnlyOnes(pieces: seq<Line>)
    requires |pieces| > 0 && forall i | 0 <= i < |pieces| :: Unbroken(pieces[i])
    ensures Pieces(Stream(pieces)) == pieces
  {
    if |pieces| > 1 {
      CutAt(pieces[0], Stream(pieces[1..]));
      PiecesAreTheOnlyOnes(pieces[1..]);
      assert pieces == [pieces[0]] + pieces[1..];
    } else {
      assert pieces == [pieces[0]];
    }
  }

  /** The trimmed lines of some pieces that are not blank. */
  function NotBlank(pieces: seq<Line>, trim: Line -> Line): seq<Line> {
    if |pieces| == 0 then [] else Handed(pieces[0], trim) + NotBlank(pieces[1..], trim)
  }

  /** Every whole line fits the bound with its newline, and the last part fits
      it without one. */
  predicate Fits(pieces: seq<Line>)
    requires |pieces| > 0
  {
    && (forall i | 0 <= i < |pieces| - 1 :: |pieces[i]| + 1 <= MAX_LINE_BYTES)
    && |pieces[|pieces| - 1]| <= MAX_LINE_BYTES
  }

  lemma OneMoreFits(line: Line, more: seq<Line>)
    requires |more| > 0
    ensures Fits([line] + more) <==> |line| + 1 <= MAX_LINE_BYTES && Fits(more)
  {
    var pieces := [line] + more;
    assert pieces[|pieces| - 1] == more[|more| - 1];
    if Fits(pieces) {
      assert |pieces[0]| + 1 <= MAX_LINE_BYTES;
      forall i | 0 <= i < |more| - 1
        ensures |more[i]| + 1 <= MAX_LINE_BYTES
      {
        assert |pieces[i + 1]| + 1 <= MAX_LINE_BYTES;
      }
    }
  }

  /** What the whole lines of some pieces hand on. */
  function WholeLines(pieces: seq<Line>, trim: Line -> Line): seq<Line>
    requires |pieces| > 0
  {
    NotBlank(pieces[..|pieces| - 1], trim)
  }

  lemma OneMoreHanded(line: Line, more: seq<Line>, trim: Line -> Line)
    requires |more| > 0
    ensures WholeLines([line] + more, trim) == Handed(line, trim) + WholeLines(more, trim)
  {
    var pieces := [line] + more;
    assert pieces[..|pieces| - 1][1..] == more[..|more| - 1];
  }

  predicate AreTheLines(taken: Taken, pieces: seq<Line>, trim: Line -> Line)
    requires |pieces| > 0
  {
    && (taken.error.None? <==> Fits(pieces))
    && (taken.error.None? ==> taken.lines == WholeLines(pieces, trim) && taken.waiting == pieces[|pieces| - 1])
  }

  lemma OneMoreLine(line: Line, rest: seq<Byte>, more: seq<Line>, trim: Line -> Line)
    requires |more| > 0 && AreTheLines(TakenOf(rest, trim), more, trim)
    ensures AreTheLines(OneLine(line, rest, TakenOf(rest, trim), trim), [line] + more, trim)
  {
    OneMoreFits(line, more);
    OneMoreHanded(line, more, trim);
  }

  lemma NoLineYet(bytes: seq<Byte>, trim: Line -> Line)
    requires FirstBreak(bytes).None?
    ensures TakenOf(bytes, trim) == Taken([], bytes, if |bytes| > MAX_LINE_BYTES then Some(WithoutAnEnd) else None)
    ensures Pieces(bytes) == [bytes] && AreTheLines(TakenOf(bytes, trim), [bytes], trim)
  {
    assert [bytes][..0] == [];
  }

  /** A stream is refused if and only if a line of it does not fit; otherwise its
      lines that are not blank are handed on, and its last part waits. */
  lemma {:induction false} TakenAreTheLines(bytes: seq<Byte>, trim: Line -> Line)
    ensures AreTheLines(TakenOf(bytes, trim), Pieces(bytes), trim)
    decreases |bytes|
  {
    var end := FirstBreak(bytes);
    if end.Some? {
      var rest := bytes[end.value + 1..];
      TakenAreTheLines(rest, trim);
      OneMoreLine(bytes[..end.value], rest, Pieces(rest), trim);
    } else {
      NoLineYet(bytes, trim);
    }
  }

  /** Which of some pieces are handed on, in order: all that are not blank once
      trimmed. */
  ghost predicate AreThePlaces(pieces: seq<Line>, trim: Line -> Line, places: seq<nat>) {
    && (forall k, l :: 0 <= k < l < |places| ==> places[k] < places[l])
    && forall i: nat :: i in places <==> i < |pieces| && trim(pieces[i]) != []
  }

  /** The lines are those pieces, trimmed. */
  ghost predicate AreTheTrimmed(lines: seq<Line>, pieces: seq<Line>, trim: Line -> Line, places: seq<nat>) {
    && |lines| == |places|
    && forall k :: 0 <= k < |places| ==> places[k] < |pieces| && lines[k] == trim(pieces[places[k]])
  }

  lemma {:induction false} NotBlankOneMore(pieces: seq<Line>, last: Line, trim: Line -> Line)
    ensures NotBlank(pieces + [last], trim) == NotBlank(pieces, trim) + Handed(last, trim)
  {
    var more := pieces + [last];
    assert NotBlank(more, trim) == Handed(more[0], trim) + NotBlank(more[1..], trim);
    if |pieces| == 0 {
      assert |more[1..]| == 0;
    } else {
      assert more[1..] == pieces[1..] + [last];
      NotBlankOneMore(pieces[1..], last, trim);
      AddedLines(Handed(pieces[0], trim), NotBlank(pieces[1..], trim), Handed(last, trim));
    }
  }

  lemma OnePlaceMore(pieces: seq<Line>, last: Line, trim: Line -> Line, before: seq<nat>) returns (places: seq<nat>)
    requires AreThePlaces(pieces, trim, before)
    ensures AreThePlaces(pieces + [last], trim, places)
    ensures places == if trim(last) == [] then before else before + [|pieces|]
  {
    var more := pieces + [last];
    places := if trim(last) == [] then before else before + [|pieces|];
    forall k | 0 <= k < |before|
      ensures before[k] < |pieces|
    {
      assert before[k] in before;
    }
    forall i: nat
      ensures i in places <==> i < |more| && trim(more[i]) != []
    {
      assert i < |pieces| ==> more[i] == pieces[i];
      assert i in places <==> i in before || (trim(last) != [] && i == |pieces|);
    }
  }

  lemma OneTrimmedMore(lines: seq<Line>, pieces: seq<Line>, last: Line, trim: Line -> Line, before: seq<nat>)
    requires AreTheTrimmed(lines, pieces, trim, before)
    ensures trim(last) == [] ==> AreTheTrimmed(lines + Handed(last, trim), pieces + [last], trim, before)
    ensures trim(last) != [] ==>
              AreTheTrimmed(lines + Handed(last, trim), pieces + [last], trim, before + [|pieces|])
  {
  }

  lemma {:induction false} NotBlankInOrder(pieces: seq<Line>, trim: Line -> Line) returns (places: seq<nat>)
    ensures AreThePlaces(pieces, trim, places) && AreTheTrimmed(NotBlank(pieces, trim), pieces, trim, places)
  {
    if |pieces| == 0 {
      places := [];
    } else {
      var n := |pieces| - 1;
      var before := NotBlankInOrder(pieces[..n], trim);
      places := OnePlaceMore(pieces[..n], pieces[n], trim, before);
      NotBlankOneMore(pieces[..n], pieces[n], trim);
      OneTrimmedMore(NotBlank(pieces[..n], trim), pieces[..n], pieces[n], trim, before);
      assert pieces == pieces[..n] + [pieces[n]];
    }
  }

  /** What is handed on of a stream that is not refused: its whole lines, trimmed, in
      order, each that is not blank, and no other. */
  lemma HandedAreTheTrimmedLines(bytes: seq<Byte>, trim: Line -> Line) returns (places: seq<nat>)
    requires TakenOf(bytes, trim).error.None?
    ensures var pieces := Pieces(bytes);
            var whole := pieces[..|pieces| - 1];
            && AreThePlaces(whole, trim, places)
            && AreTheTrimmed(TakenOf(bytes, trim).lines, whole, trim, places)
  {
    TakenAreTheLines(bytes, trim);
    var pieces := Pieces(bytes);
    places := NotBlankInOrder(pieces[..|pieces| - 1], trim);
  }

  /** The first whole line that does not fit. */
  predicate IsFirstTooLong(pieces: seq<Line>, i: nat) {
    && i < |pieces| - 1 && |pieces[i]| + 1 > MAX_LINE_BYTES
    && forall j :: 0 <= j < i ==> |pieces[j]| + 1 <= MAX_LINE_BYTES
  }

  ghost predicate IsRefusedFor(error: Option<Error>, pieces: seq<Line>)
    requires |pieces| > 0
  {
    match error
    case Some(TooLong(n)) => exists i: nat :: IsFirstTooLong(pieces, i) && n == |pieces[i]| + 1
    case Some(WithoutAnEnd) =>
      && (forall i :: 0 <= i < |pieces| - 1 ==> |pieces[i]| + 1 <= MAX_LINE_BYTES)
      && |pieces[|pieces| - 1]| > MAX_LINE_BYTES
    case None => Fits(pieces)
  }

  lemma RefusedOneMore(line: Line, pieces: seq<Line>, error: Option<Error>)
    requires |pieces| > 0 && |line| + 1 <= MAX_LINE_BYTES && IsRefusedFor(error, pieces)
    ensures IsRefusedFor(error, [line] + pieces)
  {
    var more := [line] + pieces;
    assert more[|more| - 1] == pieces[|pieces| - 1];
    assert forall i :: 0 < i < |more| ==> more[i] == pieces[i - 1];
    OneMoreFits(line, pieces);
    if error.Some? && error.value.TooLong? {
      var i: nat :| IsFirstTooLong(pieces, i) && error.value.bytes == |pieces[i]| + 1;
      assert IsFirstTooLong(more, i + 1);
    }
  }

  /** Why a stream is refused: for its first whole line that does not fit, with its
      length; or, when all of them fit, for a last part that does not. */
  lemma {:induction false} RefusedFor(bytes: seq<Byte>, trim: Line -> Line)
    ensures IsRefusedFor(TakenOf(bytes, trim).error, Pieces(bytes))
    decreases |bytes|
  {
    var end := FirstBreak(bytes);
    if end.Some? {
      var line, rest := bytes[..end.value], bytes[end.value + 1..];
      RefusedFor(rest, trim);
      if |line| + 1 > MAX_LINE_BYTES {
        assert IsFirstTooLong([line] + Pieces(rest), 0);
      } else {
        RefusedOneMore(line, Pieces(rest), TakenOf(rest, trim).error);
      }
    } else {
      NoLineYet(bytes, trim);
    }
  }

  lemma AddedLines(a: seq<Line>, b: seq<Line>, c: seq<Line>)
    ensures a + (b + c) == (a + b) + c
  {
  }

  /** What all the bytes make, from what the first of them make and what comes of
      the part that waits. */
  predicate InTwo(all: Taken, some: Taken, later: Taken) {
    if some.error.Some? then all.error.Some? else all == Before(some.lines, later)
  }

  lemma OneLineInTwo(
    line: Line, rest: seq<Byte>, longer: seq<Byte>, all: Taken, some: Taken, later: Taken, trim: Line -> Line)
    requires InTwo(all, some, later)
    ensures InTwo(OneLine(line, longer, all, trim), OneLine(line, rest, some, trim), later)
    ensures OneLine(line, rest, some, trim).error.None? ==> OneLine(line, rest, some, trim).waiting == some.waiting
  {
    AddedLines(Handed(line, trim), some.lines, later.lines);
  }

  lemma TakenStep(line: Line, rest: seq<Byte>, trim: Line -> Line)
    requires Unbroken(line)
    ensures TakenOf(line + [NEWLINE] + rest, trim) == OneLine(line, rest, TakenOf(rest, trim), trim)
  {
    CutAt(line, rest);
  }

  lemma {:induction false} NoBreakYet(first: seq<Byte>, second: seq<Byte>)
    requires Unbroken(first)
    ensures FirstBreak(first + second).Some? ==> |first| <= FirstBreak(first + second).value
  {
    if |first| > 0 {
      assert (first + second)[1..] == first[1..] + second;
      NoBreakYet(first[1..], second);
    }
  }

  /** The bytes taken first make of all the bytes what they make alone: they end
      the connection already, or their lines come first. */
  lemma {:induction false} TakenInTwo(first: seq<Byte>, second: seq<Byte>, trim: Line -> Line)
    ensures var some := TakenOf(first, trim);
            InTwo(TakenOf(first + second, trim), some, TakenOf(some.waiting + second, trim))
    decreases |first|
  {
    var end := FirstBreak(first);
    if end.Some? {
      var line, rest := first[..end.value], first[end.value + 1..];
      assert first == line + [NEWLINE] + rest && first + second == line + [NEWLINE] + (rest + second);
      TakenStep(line, rest, trim);
      TakenStep(line, rest + second, trim);
      TakenInTwo(rest, second, trim);
      var some := TakenOf(rest, trim);
      var all, later := TakenOf(rest + second, trim), TakenOf(some.waiting + second, trim);
      OneLineInTwo(line, rest, rest + second, all, some, later, trim);
    } else {
      NoLineYet(first, trim);
      NoBreakYet(first, second);
    }
  }

  /** However a stream is cut into parts, it is refused if and only if it is
      refused whole; and if not, the lines put together and what waits are the
      same. */
  lemma {:induction false} ChunksMakeNoDifference(waiting: seq<Byte>, chunks: seq<seq<Byte>>, trim: Line -> Line)
    requires Unbroken(waiting) && |waiting| <= MAX_LINE_BYTES
    ensures var parts, whole := TakenInTurn(waiting, chunks, trim), TakenOf(waiting + Joined(chunks), trim);
            && (parts.error.None? <==> whole.error.None?)
            && (whole.error.None? ==> parts == whole)
    decreases |chunks|
  {
    if |chunks| == 0 {
      assert waiting + Joined(chunks) == waiting;
    } else {
      var bytes := waiting + chunks[0];
      assert waiting + Joined(chunks) == bytes + Joined(chunks[1..]);
      TakenInTwo(bytes, Joined(chunks[1..]), trim);
      var first := TakenOf(bytes, trim);
      if first.error.None? {
        WhatWaitsFits(bytes, trim);
        ChunksMakeNoDifference(first.waiting, chunks[1..], trim);
      }
    }
  }

  /** What waits never holds a newline and never exceeds the bound. */
  lemma WhatWaitsFits(bytes: seq<Byte>, trim: Line -> Line)
    requires TakenOf(bytes, trim).error.None?
    ensures Unbroken(TakenOf(bytes, trim).waiting) && |TakenOf(bytes, trim).waiting| <= MAX_LINE_BYTES
  {
    TakenAreTheLines(bytes, trim);
    PiecesMakeTheStream(bytes);
  }

  lemma TakenAt(bytes: seq<Byte>, end: nat, trim: Line -> Line)
    requires FirstBreak(bytes) == Some(end)
    ensures TakenOf(bytes, trim) == OneLine(bytes[..end], bytes[end + 1..], TakenOf(bytes[end + 1..], trim), trim)
  {
  }

  /** What all the bytes make is the lines so far, and what the rest makes. */
  predicate SoFar(all: Taken, lines: seq<Line>, rest: seq<Byte>, trim: Line -> Line) {
    all == Before(lines, TakenOf(rest, trim))
  }

  lemma NoneYet(bytes: seq<Byte>, trim: Line -> Line)
    ensures SoFar(TakenOf(bytes, trim), [], bytes, trim)
  {
    assert [] + TakenOf(bytes, trim).lines == TakenOf(bytes, trim).lines;
  }

  /** One turn of the loop that hands lines on. */
  lemma AnotherLine(all: Taken, lines: seq<Line>, bytes: seq<Byte>, end: nat, trim: Line -> Line)
    requires FirstBreak(bytes) == Some(end) && SoFar(all, lines, bytes, trim)
    ensures end + 1 > MAX_LINE_BYTES ==> all.waiting == bytes[end + 1..] && all.error == Some(TooLong(end + 1))
    ensures end + 1 <= MAX_LINE_BYTES ==> SoFar(all, lines + Handed(bytes[..end], trim), bytes[end + 1..], trim)
  {
    TakenAt(bytes, end, trim);
    AddedLines(lines, Handed(bytes[..end], trim), TakenOf(bytes[end + 1..], trim).lines);
  }

  /** And its end. */
  lemma NoMoreLines(all: Taken, lines: seq<Line>, bytes: seq<Byte>, trim: Line -> Line)
    requires FirstBreak(bytes).None? && SoFar(all, lines, bytes, trim)
    ensures all == Taken(lines, bytes, if |bytes| > MAX_LINE_BYTES then Some(WithoutAnEnd) else None)
  {
    NoLineYet(bytes, trim);
    assert lines + [] == lines;
  }

  // ----- The code

  class LineReader {
    var waiting: seq<Byte>

    constructor ()
      ensures waiting == []
    {
      waiting := [];
    }

    /** The position of the first newline that waits. */
    method Position() returns (end: Option<nat>)
      ensures end == FirstBreak(waiting)
    {
      var i := 0;
      while i < |waiting|
        invariant i <= |waiting| && Unbroken(waiting[..i])
      {
        if waiting[i] == NEWLINE {
          assert waiting == waiting[..i] + [NEWLINE] + waiting[i + 1..];
          FirstBreakIs(waiting[..i], waiting[i + 1..]);
          return Some(i);
        }
        i := i + 1;
      }
      assert waiting == waiting[..i];
      end := None;
    }

    /** Takes the next line off what waits. */
    method Drain(end: nat) returns (line: Line)
      requires end < |waiting|
      modifies this
      ensures line == old(waiting)[..end] && waiting == old(waiting)[end + 1..]
    {
      line := waiting[..end];
      waiting := waiting[end + 1..];
    }

    method Take(bytes: seq<Byte>, trim: Line -> Line) returns (r: (seq<Line>, Option<Error>))
      modifies this
      ensures var taken := TakenOf(old(waiting) + bytes, trim);
              && waiting == taken.waiting && r.1 == taken.error
              && (r.1.None? ==> r.0 == taken.lines)
    {
      waiting := waiting + bytes;
      ghost var all := TakenOf(waiting, trim);
      var lines: seq<Line> := [];
      NoneYet(waiting, trim);
      var end := Position();
      while end.Some?
        invariant end == FirstBreak(waiting)
        invariant SoFar(all, lines, waiting, trim)
        decreases |waiting|
      {
        AnotherLine(all, lines, waiting, end.value, trim);
        var line := Drain(end.value);
        if |line| + 1 > MAX_LINE_BYTES {
          return ([], Some(TooLong(|line| + 1)));
        }
        lines := lines + Handed(line, trim);
        end := Position();
      }
      NoMoreLines(all, lines, waiting, trim);
      if |waiting| > MAX_LINE_BYTES {
        return ([], Some(WithoutAnEnd));
      }
      r := (lines, None);
    }
  }
}

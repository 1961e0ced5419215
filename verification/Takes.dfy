/** The day's takes, from the rows of the action log. */
module Takes {
  import opened Common

  /** A moment of the clock, in nanoseconds. */
  type Time = int

  const DOMAIN_CAMERAS := "cameras"
  const TARGET := "CAM 1"
  const STARTED := "recording-started"
  const STOPPED := "recording-stopped"
  const NANOS_IN_A_SECOND: nat := 1_000_000_000
  const MOST_SECONDS: nat := 0xFFFF_FFFF

  /** A row, with its time if that can be read. */
  datatype Row = Row(domain: string, target: string, action: string, at: Option<Time>)

  datatype TakesToday = TakesToday(count: nat, recordedSeconds: nat)

  // ----- What the day's takes are

  /** A start or a stop of CAM 1's recording. */
  datatype Mark = Start(at: Time) | Stop(at: Time)

  predicate Marks(row: Row) {
    && row.domain == DOMAIN_CAMERAS && row.target == TARGET && row.at.Some?
    && (row.action == STARTED || row.action == STOPPED)
  }

  function MarkOf(row: Row): Mark
    requires Marks(row)
  {
    if row.action == STARTED then Start(row.at.value) else Stop(row.at.value)
  }

  function MarksOf(rows: seq<Row>): seq<Mark> {
    if |rows| == 0 then []
    else
      var last := rows[|rows| - 1];
      MarksOf(rows[..|rows| - 1]) + (if Marks(last) then [MarkOf(last)] else [])
  }

  function Starts(marks: seq<Mark>): nat {
    if |marks| == 0 then 0 else Starts(marks[..|marks| - 1]) + if marks[|marks| - 1].Start? then 1 else 0
  }

  /** How long the take was that the mark closes: a stop whose nearest mark before
      it is a start. */
  function ClosedBy(marks: seq<Mark>, i: nat): nat
    requires i < |marks|
  {
    if i > 0 && marks[i].Stop? && marks[i - 1].Start? then Since(marks[i - 1].at, marks[i].at) else 0
  }

  function ClosedUpTo(marks: seq<Mark>, n: nat): nat
    requires n <= |marks|
  {
    if n == 0 then 0 else ClosedUpTo(marks, n - 1) + ClosedBy(marks, n - 1)
  }

  function Closed(marks: seq<Mark>): nat { ClosedUpTo(marks, |marks|) }

  /** When the take that is still open began. */
  function Open(marks: seq<Mark>): Option<Time> {
    if |marks| > 0 && marks[|marks| - 1].Start? then Some(marks[|marks| - 1].at) else None
  }

  /** How long the take that is still open has been, while CAM 1 reports it. */
  function SoFar(marks: seq<Mark>, now: Time, recordingNow: bool): nat {
    if Open(marks).Some? && recordingNow then Since(Open(marks).value, now) else 0
  }

  function Recorded(marks: seq<Mark>, now: Time, recordingNow: bool): nat {
    Closed(marks) + SoFar(marks, now, recordingNow)
  }

  function Seconds(nanos: nat): nat {
    if nanos / NANOS_IN_A_SECOND > MOST_SECONDS then MOST_SECONDS else nanos / NANOS_IN_A_SECOND
  }

  // ----- Splits

  lemma {:induction false} MarksInTwo(a: seq<Row>, b: seq<Row>)
    ensures MarksOf(a + b) == MarksOf(a) + MarksOf(b)
  {
    if |b| == 0 {
      assert a + b == a;
    } else {
      MarksInTwo(a, b[..|b| - 1]);
      assert (a + b)[..|a + b| - 1] == a + b[..|b| - 1];
    }
  }

  lemma {:induction false} StartsInTwo(a: seq<Mark>, b: seq<Mark>)
    ensures Starts(a + b) == Starts(a) + Starts(b)
  {
    if |b| == 0 {
      assert a + b == a;
    } else {
      StartsInTwo(a, b[..|b| - 1]);
      assert (a + b)[..|a + b| - 1] == a + b[..|b| - 1];
    }
  }

  /** A take that a split cuts in two: open at its end, and stopped first after. */
  function CutTake(a: seq<Mark>, b: seq<Mark>): nat {
    if Open(a).Some? && |b| > 0 && b[0].Stop? then Since(Open(a).value, b[0].at) else 0
  }

  lemma {:induction false} ClosedOfAPrefix(marks: seq<Mark>, n: nat, k: nat)
    requires k <= n <= |marks|
    ensures ClosedUpTo(marks[..n], k) == ClosedUpTo(marks, k)
  {
    if k > 0 {
      ClosedOfAPrefix(marks, n, k - 1);
    }
  }

  lemma {:induction false} ClosedInTwo(a: seq<Mark>, b: seq<Mark>, n: nat)
    requires n <= |b|
    ensures ClosedUpTo(a + b, |a| + n) == Closed(a) + ClosedUpTo(b, n) + (if n == 0 then 0 else CutTake(a, b))
  {
    if n == 0 {
      ClosedOfAPrefix(a + b, |a|, |a|);
      assert (a + b)[..|a|] == a;
    } else {
      ClosedInTwo(a, b, n - 1);
    }
  }

  /** Over any split of the day's rows the counts add up; and so does the time
      recorded, but for a take open at the split: one that the rows after it stop
      is cut in two, and one that any mark follows is not open at the end. With no
      take open at the split it adds up as it is. */
  lemma TheDayAddsUp(a: seq<Row>, b: seq<Row>, now: Time, recordingNow: bool)
    ensures var first, second, all := MarksOf(a), MarksOf(b), MarksOf(a + b);
            && Starts(all) == Starts(first) + Starts(second)
            && (Open(first).None? ==>
                  Recorded(all, now, recordingNow)
                  == Recorded(first, now, recordingNow) + Recorded(second, now, recordingNow))
            && Closed(all) == Closed(first) + Closed(second) + CutTake(first, second)
            && Recorded(all, now, recordingNow)
               == Recorded(first, now, recordingNow) + Recorded(second, now, recordingNow) + CutTake(first, second)
                  - (if second == [] then 0 else SoFar(first, now, recordingNow))
  {
    MarksInTwo(a, b);
    StartsInTwo(MarksOf(a), MarksOf(b));
    ClosedInTwo(MarksOf(a), MarksOf(b), |MarksOf(b)|);
  }

  lemma OneMoreMark(marks: seq<Mark>, mark: Mark)
    ensures var more := marks + [mark];
            && Starts(more) == Starts(marks) + (if mark.Start? then 1 else 0)
            && Closed(more)
               == Closed(marks) + (if mark.Stop? && Open(marks).Some? then Since(Open(marks).value, mark.at) else 0)
            && Open(more) == if mark.Start? then Some(mark.at) else None
  {
    var more := marks + [mark];
    assert more[..|marks|] == marks;
    ClosedOfAPrefix(more, |marks|, |marks|);
  }

  lemma OneMoreRow(rows: seq<Row>, row: Row)
    ensures MarksOf(rows + [row]) == if Marks(row) then MarksOf(rows) + [MarkOf(row)] else MarksOf(rows)
  {
    assert (rows + [row])[..|rows|] == rows;
    assert MarksOf(rows) + [] == MarksOf(rows);
  }

  /** A row that marks nothing, and a stop with no take open, change nothing. */
  lemma AStopWithoutItsStartCountsNothing(rows: seq<Row>, row: Row, now: Time, recordingNow: bool)
    requires !Marks(row) || (row.action == STOPPED && Open(MarksOf(rows)).None?)
    ensures Starts(MarksOf(rows + [row])) == Starts(MarksOf(rows))
    ensures Recorded(MarksOf(rows + [row]), now, recordingNow) == Recorded(MarksOf(rows), now, recordingNow)
  {
    OneMoreRow(rows, row);
    if Marks(row) {
      OneMoreMark(MarksOf(rows), MarkOf(row));
    }
  }

  // ----- The count

  function StartsAmong(rows: seq<Row>): set<nat> {
    set i: nat | i < |rows| && Marks(rows[i]) && rows[i].action == STARTED
  }

  lemma OneMoreStart(rows: seq<Row>, row: Row)
    ensures StartsAmong(rows + [row])
            == if Marks(row) && row.action == STARTED then StartsAmong(rows) + {|rows|} else StartsAmong(rows)
  {
    var more := rows + [row];
    forall i: nat | i < |rows|
      ensures i in StartsAmong(more) <==> i in StartsAmong(rows)
    {
      assert more[i] == rows[i];
    }
    assert more[|rows|] == row;
  }

  /** A take is counted for each start of CAM 1's recording whose time can be read,
      stopped or not. */
  lemma {:induction false} TakesAreTheStarts(rows: seq<Row>)
    ensures Starts(MarksOf(rows)) == |StartsAmong(rows)|
  {
    if |rows| > 0 {
      var n := |rows| - 1;
      assert rows == rows[..n] + [rows[n]];
      TakesAreTheStarts(rows[..n]);
      OneMoreStart(rows[..n], rows[n]);
      OneStartMore(rows[..n], rows[n]);
    }
  }

  lemma OneStartMore(rows: seq<Row>, row: Row)
    ensures Starts(MarksOf(rows + [row]))
            == Starts(MarksOf(rows)) + if Marks(row) && row.action == STARTED then 1 else 0
  {
    OneMoreRow(rows, row);
    if Marks(row) {
      OneMoreMark(MarksOf(rows), MarkOf(row));
    }
  }

  // ----- What is shown

  /** Whole seconds, rounded down, up to the largest number that fits. */
  lemma SecondsRoundDown(nanos: nat)
    ensures var seconds := Seconds(nanos);
            && seconds * 1_000_000_000 <= nanos
            && (seconds < 0xFFFF_FFFF ==> nanos < (seconds + 1) * 1_000_000_000)
            && seconds <= 0xFFFF_FFFF
  {
  }

  /** Row `i` starts a take, and no row after it is a start or a stop. */
  predicate IsOpenTake(rows: seq<Row>, i: nat) {
    && i < |rows| && Marks(rows[i]) && rows[i].action == STARTED
    && forall j :: i < j < |rows| ==> !Marks(rows[j])
  }

  ghost predicate OpenFits(rows: seq<Row>, open: Option<Time>) {
    && (open.None? ==> forall i: nat :: !IsOpenTake(rows, i))
    && (open.Some? ==> exists i: nat :: IsOpenTake(rows, i) && rows[i].at == open)
  }

  lemma OpenAsBefore(rows: seq<Row>, row: Row, open: Option<Time>)
    requires !Marks(row) && OpenFits(rows, open)
    ensures OpenFits(rows + [row], open)
  {
    var more := rows + [row];
    forall i: nat
      ensures IsOpenTake(more, i) <==> IsOpenTake(rows, i)
    {
      assert i < |rows| ==> more[i] == rows[i];
      assert IsOpenTake(more, i) ==> forall j :: i < j < |rows| ==> more[j] == rows[j];
    }
    if open.Some? {
      var i: nat :| IsOpenTake(rows, i) && rows[i].at == open;
      assert IsOpenTake(more, i);
    }
  }

  lemma OpenAfterAMark(rows: seq<Row>, row: Row)
    requires Marks(row)
    ensures OpenFits(rows + [row], if row.action == STARTED then row.at else None)
  {
    var more := rows + [row];
    assert more[|rows|] == row;
    if row.action == STARTED {
      assert IsOpenTake(more, |rows|);
    }
  }

  lemma {:induction false} OpenIs(rows: seq<Row>)
    ensures OpenFits(rows, Open(MarksOf(rows)))
  {
    if |rows| > 0 {
      var n := |rows| - 1;
      assert rows == rows[..n] + [rows[n]];
      OpenIs(rows[..n]);
      OneMoreRow(rows[..n], rows[n]);
      if Marks(rows[n]) {
        OneMoreMark(MarksOf(rows[..n]), MarkOf(rows[n]));
        OpenAfterAMark(rows[..n], rows[n]);
      } else {
        OpenAsBefore(rows[..n], rows[n], Open(MarksOf(rows[..n])));
      }
    }
  }

  /** The take that is open counts up to the present while CAM 1 reports recording,
      and not at all while it does not. */
  lemma AnOpenTakeCountsWhileRecording(rows: seq<Row>, now: Time, other: Time)
    ensures var marks := MarksOf(rows);
            && (forall i: nat | IsOpenTake(rows, i) ::
                  Recorded(marks, now, true) == Recorded(marks, other, false) + Since(rows[i].at.value, now))
            && ((forall i: nat :: !IsOpenTake(rows, i)) ==>
                  Recorded(marks, now, true) == Recorded(marks, other, false))
  {
    OpenIs(rows);
    var open := Open(MarksOf(rows));
    if open.Some? {
      var i: nat :| IsOpenTake(rows, i) && rows[i].at == open;
      assert forall j: nat | IsOpenTake(rows, j) :: j == i;
    }
  }

  // ----- The code

  method Today(rows: seq<Row>, now: Time, recordingNow: bool) returns (takes: TakesToday)
    ensures takes.count == Starts(MarksOf(rows))
    ensures takes.recordedSeconds == Seconds(Recorded(MarksOf(rows), now, recordingNow))
  {
    var count: nat, recorded: nat, open: Option<Time> := 0, 0, None;
    for i := 0 to |rows|
      invariant count + (if open.Some? then 1 else 0) == Starts(MarksOf(rows[..i]))
      invariant recorded == Closed(MarksOf(rows[..i])) && open == Open(MarksOf(rows[..i]))
    {
      var row := rows[i];
      assert rows[..i + 1] == rows[..i] + [row];
      OneMoreRow(rows[..i], row);
      if Marks(row) {
        OneMoreMark(MarksOf(rows[..i]), MarkOf(row));
      }
      if row.domain == DOMAIN_CAMERAS && row.target == TARGET && row.at.Some? {
        var at := row.at.value;
        if row.action == STARTED {
          if open.Some? {
            count := count + 1;
          }
          open := Some(at);
        } else if row.action == STOPPED && open.Some? {
          count := count + 1;
          recorded := recorded + Since(open.value, at);
          open := None;
        }
      }
    }
    assert rows[..|rows|] == rows;
    if open.Some? {
      count := count + 1;
      if recordingNow {
        recorded := recorded + Since(open.value, now);
      }
    }
    takes := TakesToday(count, Seconds(recorded));
  }
}

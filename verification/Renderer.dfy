/** The cache of converted pictures: a frame whose count the camera's picture
    holds already is not uploaded again. The conversion itself, on the graphics
    card, is an image known only by the frame it was made from. */
module Renderer {
  import opened Common
  import opened Frames
  import opened FrameChecks

  datatype Image = Blank | Of(frame: Picture)

  datatype Size = Size(width: nat, height: nat)

  /** What a draw is given of a camera: a frame and its count. */
  datatype Given = Given(frame: Picture, sequence: nat)

  predicate Takes(g: Given) { CheckPicture(g.frame.bytes, g.frame.width, g.frame.height, g.frame.stride).Ok? }

  /** One camera's place in the renderer: the size its uploads are made for,
      its picture, and the count of the frame the picture holds. */
  datatype Cell = Cell(source: Option<Size>, converted: Option<Image>, holds: Option<nat>)

  const EMPTY := Cell(None, None, None)

  datatype Outcome = Skipped | Drawn | Failed

  /** What a draw brings a camera, and whether the graphics card makes what it
      is asked for. */
  datatype Turn = Turn(shown: bool, given: Option<Given>, makesSource: bool, makesConverted: bool)

  predicate Hits(cell: Cell, g: Given) { cell.converted.Some? && cell.holds == Some(g.sequence) }

  function Made(cell: Cell, g: Given): Cell {
    Cell(Some(Size(g.frame.width, g.frame.height)), Some(Of(g.frame)), Some(g.sequence))
  }

  /** One camera's part of `convert_all`. */
  function Turned(cell: Cell, turn: Turn): (Cell, Outcome) {
    if turn.given.None? || !turn.shown then (cell, Skipped)
    else
      var g := turn.given.value;
      if !Takes(g) then (cell, Skipped)
      else if Hits(cell, g) then (cell, Drawn)
      else
        var fits := cell.source == Some(Size(g.frame.width, g.frame.height));
        if !fits && !turn.makesSource then (cell, Failed)
        else
          var sized := cell.(source := Some(Size(g.frame.width, g.frame.height)));
          if cell.converted.None? && !turn.makesConverted then (sized, Failed)
          else (Made(cell, g), Drawn)
  }

  function Played(cell: Cell, turns: seq<Turn>): Cell {
    if |turns| == 0 then cell else Turned(Played(cell, turns[..|turns| - 1]), turns[|turns| - 1]).0
  }

  // ----- What is shown

  /** Over the renderer's life, a count names one frame. */
  ghost predicate CountsName(turns: seq<Turn>, name: nat -> Picture) {
    forall i | 0 <= i < |turns| && turns[i].given.Some? ::
      name(turns[i].given.value.sequence) == turns[i].given.value.frame
  }

  ghost predicate HoldsItsName(cell: Cell, name: nat -> Picture) {
    cell.converted.Some? && cell.holds.Some? ==> cell.converted.value == Of(name(cell.holds.value))
  }

  lemma {:induction false} PlayedHoldsItsName(cell: Cell, turns: seq<Turn>, name: nat -> Picture)
    requires HoldsItsName(cell, name) && CountsName(turns, name)
    ensures HoldsItsName(Played(cell, turns), name)
  {
    if |turns| > 0 {
      PlayedHoldsItsName(cell, turns[..|turns| - 1], name);
    }
  }

  /** Over any draws, size changes, skipped or refused frames and failed
      allocations: a camera reported drawn shows the frame given in that draw,
      provided a count names one frame. */
  lemma DrawnIsTheFrameGiven(turns: seq<Turn>, turn: Turn, name: nat -> Picture)
    requires CountsName(turns + [turn], name)
    requires Turned(Played(EMPTY, turns), turn).1.Drawn?
    ensures turn.given.Some? && Turned(Played(EMPTY, turns), turn).0.converted == Some(Of(turn.given.value.frame))
  {
    var all := turns + [turn];
    assert all[|turns|] == turn;
    assert CountsName(turns, name) by {
      forall i | 0 <= i < |turns| && turns[i].given.Some?
        ensures name(turns[i].given.value.sequence) == turns[i].given.value.frame
      {
        assert all[i] == turns[i];
      }
    }
    PlayedHoldsItsName(EMPTY, turns, name);
  }

  /** The frames of the draws reported drawn, in order. */
  function DrawnOf(turns: seq<Turn>): seq<Given> {
    if |turns| == 0 then []
    else
      var before, last := turns[..|turns| - 1], turns[|turns| - 1];
      DrawnOf(before) + if Turned(Played(EMPTY, before), last).1.Drawn? then [last.given.value] else []
  }

  /** The first of the last ones with one count: what follows it under the same
      count is not converted. */
  function LastConverted(drawn: seq<Given>): Given
    requires |drawn| > 0
  {
    var n := |drawn| - 1;
    if n > 0 && drawn[n].sequence == drawn[n - 1].sequence then LastConverted(drawn[..n]) else drawn[n]
  }

  /** What the renderer holds of a camera is told by what was reported drawn. */
  lemma {:induction false} HoldsTheLastConverted(turns: seq<Turn>)
    ensures var cell, drawn := Played(EMPTY, turns), DrawnOf(turns);
            && (cell.converted.Some? <==> |drawn| > 0) && (cell.holds.Some? <==> |drawn| > 0)
            && (|drawn| > 0 ==>
                  && cell.holds.value == drawn[|drawn| - 1].sequence
                  && cell.converted.value == Of(LastConverted(drawn).frame))
  {
    if |turns| > 0 {
      var before, last := turns[..|turns| - 1], turns[|turns| - 1];
      HoldsTheLastConverted(before);
      if Turned(Played(EMPTY, before), last).1.Drawn? {
        assert DrawnOf(turns) == DrawnOf(before) + [last.given.value];
        assert (DrawnOf(before) + [last.given.value])[..|DrawnOf(before)|] == DrawnOf(before);
      } else {
        assert DrawnOf(turns) == DrawnOf(before);
      }
    }
  }

  /** Without that proviso, over any run: a frame reported drawn is shown if and
      only if it is the first drawn, or the one drawn last had another count, or
      the one that was converted last under this count was the same frame. */
  lemma DrawnIsShownIff(turns: seq<Turn>, turn: Turn)
    requires Turned(Played(EMPTY, turns), turn).1.Drawn?
    ensures var g, drawn := turn.given.value, DrawnOf(turns);
            Turned(Played(EMPTY, turns), turn).0.converted == Some(Of(g.frame))
            <==> || |drawn| == 0
                 || drawn[|drawn| - 1].sequence != g.sequence
                 || LastConverted(drawn).frame == g.frame
  {
    HoldsTheLastConverted(turns);
  }

  /** The count alone names no frame when the pictures change from the test
      cards to vMix's under one renderer: both count from the start, and the
      first of vMix's frames is reported drawn while the card still shows. */
  lemma AChangeOfPicturesMayShowTheOldOne(card: Given, received: Given)
    requires Takes(card) && Takes(received) && card.frame != received.frame
    requires card.sequence == received.sequence == 1
    ensures var cell := Played(EMPTY, [Turn(true, Some(card), true, true)]);
            var (after, outcome) := Turned(cell, Turn(true, Some(received), true, true));
            outcome.Drawn? && after.converted == Some(Of(card.frame)) != Some(Of(received.frame))
  {
    assert [Turn(true, Some(card), true, true)][..0] == [];
  }

  // ----- What must be drawn

  predicate IsTaken(turn: Turn) { turn.shown && turn.given.Some? && Takes(turn.given.value) }

  /** The frame's count is the last one drawn. */
  predicate IsRepeat(drawn: seq<Given>, g: Given) { |drawn| > 0 && drawn[|drawn| - 1].sequence == g.sequence }

  function SizeOf(g: Given): Size { Size(g.frame.width, g.frame.height) }

  /** The size of the last source that the card made: it is asked for one by a frame of
      a new count whose size is another. */
  function SizeMade(turns: seq<Turn>): Option<Size> {
    if |turns| == 0 then None
    else
      var before, last := turns[..|turns| - 1], turns[|turns| - 1];
      if IsTaken(last) && !IsRepeat(DrawnOf(before), last.given.value) && last.makesSource
      then Some(SizeOf(last.given.value))
      else SizeMade(before)
  }

  lemma {:induction false} SourceIsTheLastMade(turns: seq<Turn>)
    ensures Played(EMPTY, turns).source == SizeMade(turns)
  {
    if |turns| > 0 {
      SourceIsTheLastMade(turns[..|turns| - 1]);
      HoldsTheLastConverted(turns[..|turns| - 1]);
    }
  }

  /** Nothing the card is asked for fails: a source for another size than the last one
      made, and a picture when nothing was drawn yet. */
  predicate CardMakes(turns: seq<Turn>, turn: Turn)
    requires turn.given.Some?
  {
    && (SizeMade(turns) == Some(SizeOf(turn.given.value)) || turn.makesSource)
    && (|DrawnOf(turns)| > 0 || turn.makesConverted)
  }

  /** Over any run: a camera is reported drawn if and only if it is shown with a frame
      that passes its check, and either that frame's count is the last one drawn or
      nothing the card is asked for fails; the draw fails if and only if something
      does; and else the camera is skipped. */
  lemma IsDrawnIff(turns: seq<Turn>, turn: Turn)
    ensures var outcome := Turned(Played(EMPTY, turns), turn).1;
            if !IsTaken(turn) then outcome.Skipped?
            else if IsRepeat(DrawnOf(turns), turn.given.value) || CardMakes(turns, turn) then outcome.Drawn?
            else outcome.Failed?
  {
    SourceIsTheLastMade(turns);
    HoldsTheLastConverted(turns);
  }

  /** With a card that makes what this draw asks of it, whatever came before, every
      shown frame that passes its check is reported drawn, and one of a new count is
      converted and shown in its own draw. */
  lemma ANewFrameIsShownAtOnce(turns: seq<Turn>, turn: Turn)
    requires IsTaken(turn) && turn.makesSource && turn.makesConverted
    ensures var (after, outcome) := Turned(Played(EMPTY, turns), turn);
            && outcome.Drawn?
            && (!IsRepeat(DrawnOf(turns), turn.given.value) ==>
                  && after.converted == Some(Of(turn.given.value.frame))
                  && after.holds == Some(turn.given.value.sequence))
  {
    IsDrawnIff(turns, turn);
    DrawnIsShownIff(turns, turn);
    HoldsTheLastConverted(turns);
  }

  // ----- The code

  class Renderer {
    const sources: array<Option<Size>>
    const converted: array<Option<Image>>
    const holds: array<Option<nat>>

    constructor ()
      ensures fresh(sources) && fresh(converted) && fresh(holds) && Valid()
      ensures forall i :: 0 <= i < CAMERAS ==> At(i) == EMPTY
    {
      sources := new Option<Size>[CAMERAS](_ => None);
      converted := new Option<Image>[CAMERAS](_ => None);
      holds := new Option<nat>[CAMERAS](_ => None);
    }

    ghost predicate Valid() { sources.Length == converted.Length == holds.Length == CAMERAS }

    ghost function At(i: nat): Cell
      requires Valid() && i < CAMERAS
      reads sources, converted, holds
    {
      Cell(sources[i], converted[i], holds[i])
    }

    /** One camera's newest frame into its picture, unless the picture holds
        that frame already. */
    method ConvertOne(index: nat, turn: Turn) returns (outcome: Outcome)
      requires Valid() && index < CAMERAS
      modifies sources, converted, holds
      ensures At(index) == Turned(old(At(index)), turn).0
      ensures outcome == Turned(old(At(index)), turn).1
      ensures forall i :: 0 <= i < CAMERAS && i != index ==> At(i) == old(At(i))
    {
      if turn.given.None? || !turn.shown {
        return Skipped;
      }
      var picture := turn.given.value.frame;
      var sequence := turn.given.value.sequence;
      var taken := CheckPicture(picture.bytes, picture.width, picture.height, picture.stride);
      if taken.Err? {
        return Skipped;
      }
      if converted[index].Some? && holds[index] == Some(sequence) {
        return Drawn;
      }
      var fits := sources[index] == Some(Size(picture.width, picture.height));
      if !fits {
        if !turn.makesSource { return Failed; }
        sources[index] := Some(Size(picture.width, picture.height));
      }
      if converted[index].None? {
        if !turn.makesConverted { return Failed; }
        converted[index] := Some(Blank);
      }
      converted[index] := Some(Of(picture));
      outcome := Drawn;
      holds[index] := Some(sequence);
    }

    /** `convert_all`: each camera in turn, until one cannot be made. The
        cameras before it are done, those after it are not touched. */
    method ConvertAll(turns: seq<Turn>) returns (drawn: Option<seq<bool>>)
      requires Valid() && |turns| == CAMERAS
      modifies sources, converted, holds
      ensures drawn.Some? <==> forall i :: 0 <= i < CAMERAS ==> Turned(old(At(i)), turns[i]).1 != Failed
      ensures drawn.Some? ==> |drawn.value| == CAMERAS
      ensures forall i :: 0 <= i < CAMERAS ==>
                At(i) == if exists j :: 0 <= j < i && Turned(old(At(j)), turns[j]).1 == Failed
                         then old(At(i)) else Turned(old(At(i)), turns[i]).0
      ensures drawn.Some? ==>
                forall i :: 0 <= i < CAMERAS ==> (drawn.value[i] <==> Turned(old(At(i)), turns[i]).1 == Drawn)
    {
      var done := [];
      for index := 0 to CAMERAS
        invariant |done| == index
        invariant forall i :: 0 <= i < index ==>
                    && Turned(old(At(i)), turns[i]).1 != Failed
                    && At(i) == Turned(old(At(i)), turns[i]).0
                    && (done[i] <==> Turned(old(At(i)), turns[i]).1 == Drawn)
        invariant forall i :: index <= i < CAMERAS ==> At(i) == old(At(i))
      {
        var outcome := ConvertOne(index, turns[index]);
        if outcome.Failed? {
          return None;
        }
        done := done + [outcome.Drawn?];
      }
      drawn := Some(done);
    }
  }
}

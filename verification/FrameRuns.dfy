/** A camera's hand-overs and draws, one after another: when it counts as drawn
    without a break, and so which frames count as replaced before they were taken. */
module FrameRuns {
  import opened Common
  import opened Frames

  /** When the newest frame landed. */
  function LastLanded<B>(before: Option<Moment>, events: seq<Event<B>>): Option<Moment> {
    if |events| == 0 then before
    else
      var last := events[|events| - 1];
      if last.Arrival? then Some(last.at) else LastLanded(before, events[..|events| - 1])
  }

  /** The draw shows the camera, whose frames are recent. */
  predicate IsDrawn<B>(t: Tally<B>, events: seq<Event<B>>, i: nat)
    requires i < |events|
  {
    events[i].Draw? && events[i].shown && Recent(LastLanded(t.newest.arrived, events[..i]), events[i].now)
  }

  /** The camera is drawn there, and after that no draw draws it or hides it. */
  predicate IsLastDrawn<B>(t: Tally<B>, events: seq<Event<B>>, i: nat) {
    && i < |events| && IsDrawn(t, events, i)
    && forall j :: i < j < |events| && events[j].Draw? ==> events[j].shown && !IsDrawn(t, events, j)
  }

  ghost predicate DrawnLately<B>(t: Tally<B>, events: seq<Event<B>>, now: Moment) {
    exists i: nat :: IsLastDrawn(t, events, i) && Since(events[i].now, now) < SHOWN_FOR
  }

  lemma {:induction false} LandedIs<B>(t: Tally<B>, events: seq<Event<B>>)
    ensures CountedAll(t, events).newest.arrived == LastLanded(t.newest.arrived, events)
  {
    if |events| > 0 {
      LandedIs(t, events[..|events| - 1]);
    }
  }

  lemma OneLastDrawn<B>(t: Tally<B>, events: seq<Event<B>>, i: nat, j: nat)
    requires IsLastDrawn(t, events, i) && IsLastDrawn(t, events, j)
    ensures i == j
  {
  }

  lemma DrawnAsBefore<B>(t: Tally<B>, events: seq<Event<B>>, i: nat)
    requires i + 1 < |events|
    ensures IsDrawn(t, events[..|events| - 1], i) == IsDrawn(t, events, i)
  {
    assert events[..|events| - 1][..i] == events[..i];
  }

  /** The last event leaves the last draw what it was, unless it draws the camera or
      hides it. */
  lemma LastDrawnBefore<B>(t: Tally<B>, events: seq<Event<B>>, i: nat)
    requires i + 1 < |events|
    ensures var last := |events| - 1;
            IsLastDrawn(t, events, i)
            <==> && IsLastDrawn(t, events[..last], i)
                 && (events[last].Draw? ==> events[last].shown && !IsDrawn(t, events, last))
  {
    var last := |events| - 1;
    forall j: nat | j < last
      ensures IsDrawn(t, events[..last], j) == IsDrawn(t, events, j)
    {
      DrawnAsBefore(t, events, j);
    }
    assert forall j: nat | j < last :: events[..last][j] == events[j];
  }

  ghost predicate DrawnAtFits<B>(t: Tally<B>, events: seq<Event<B>>, drawnAt: Option<Moment>) {
    && (drawnAt.None? ==> forall i: nat :: !IsLastDrawn(t, events, i))
    && (drawnAt.Some? ==> exists i: nat :: IsLastDrawn(t, events, i) && events[i].now == drawnAt.value)
  }

  /** The moment kept is that of the last draw that nothing since has hidden. */
  lemma {:induction false} DrawnAtIs<B>(t: Tally<B>, events: seq<Event<B>>)
    requires t.front.drawnAt.None?
    ensures DrawnAtFits(t, events, CountedAll(t, events).front.drawnAt)
  {
    if |events| > 0 {
      var last := |events| - 1;
      var u := CountedAll(t, events[..last]);
      DrawnAtIs(t, events[..last]);
      LandedIs(t, events[..last]);
      if IsDrawn(t, events, last) {
        assert IsLastDrawn(t, events, last);
      } else {
        DrawnAtStays(t, events, u.front.drawnAt);
      }
    }
  }

  lemma DrawnAtStays<B>(t: Tally<B>, events: seq<Event<B>>, drawnAt: Option<Moment>)
    requires |events| > 0 && DrawnAtFits(t, events[..|events| - 1], drawnAt)
    requires !IsDrawn(t, events, |events| - 1)
    ensures var last := events[|events| - 1];
            DrawnAtFits(t, events, if last.Draw? && !last.shown then None else drawnAt)
  {
    var last := |events| - 1;
    forall i: nat | i < last
      ensures IsLastDrawn(t, events, i)
              <==> IsLastDrawn(t, events[..last], i) && (events[last].Draw? ==> events[last].shown)
    {
      LastDrawnBefore(t, events, i);
    }
    if drawnAt.Some? {
      var i: nat :| IsLastDrawn(t, events[..last], i) && events[..last][i].now == drawnAt.value;
      assert events[i] == events[..last][i];
    }
  }

  /** From a camera never drawn: it counts as drawn without a break if and only if the
      last draw that showed it with recent frames was less than `SHOWN_FOR` ago, and
      no draw has hidden it since. */
  lemma DrawnLatelyIff<B>(t: Tally<B>, events: seq<Event<B>>, now: Moment)
    requires t.front.drawnAt.None?
    ensures Recent(CountedAll(t, events).front.drawnAt, now) <==> DrawnLately(t, events, now)
  {
    DrawnAtIs(t, events);
    var drawnAt := CountedAll(t, events).front.drawnAt;
    if drawnAt.Some? {
      var i: nat :| IsLastDrawn(t, events, i) && events[i].now == drawnAt.value;
      forall j: nat | IsLastDrawn(t, events, j)
        ensures j == i
      {
        OneLastDrawn(t, events, i, j);
      }
    }
  }

  /** What a draw takes, in terms of what came before it: a new frame with its own
      wait, and with it the frames before it that were never taken, at most a
      thousand, if the camera was drawn without a break; else the last one again. */
  lemma WhatADrawTakes<B>(t: Tally<B>, events: seq<Event<B>>, shown: bool, now: Moment)
    requires t.front.drawnAt.None? && t.front.sequence <= t.newest.sequence
    ensures var u := CountedAll(t, events);
            var taken, landed := TakenBy(u.newest, u.front, shown, now), LastLanded(t.newest.arrived, events);
            var untaken := u.newest.sequence - u.front.sequence;
            && untaken >= 0
            && (taken.arrives <==> shown && Recent(landed, now))
            && (taken.took.newFrame.Some? <==> taken.arrives && untaken > 0)
            && (taken.took.again <==> taken.arrives && untaken == 0 && DrawnLately(t, events, now))
            && (taken.took.newFrame.Some? ==>
                  && taken.took.newFrame.value.0 == Since(landed.value, now)
                  && taken.took.newFrame.value.1
                     == if !DrawnLately(t, events, now) then 0
                        else if untaken - 1 < MOST_MISSED then untaken - 1 else MOST_MISSED)
  {
    NeverAhead(t, events);
    LandedIs(t, events);
    DrawnLatelyIff(t, events, now);
  }

  /** Frames that land while the scene hides the camera are never counted as replaced:
      once a draw has hidden it, and none has drawn it since, the next draw, whatever
      it takes, adds nothing to them. */
  lemma HiddenFramesAreNotMissed<B>(t: Tally<B>, events: seq<Event<B>>, hidden: nat, next: Event<B>)
    requires t.front.drawnAt.None?
    requires hidden < |events| && events[hidden].Draw? && !events[hidden].shown
    requires forall j :: hidden < j < |events| ==> !IsDrawn(t, events, j)
    ensures Counted(CountedAll(t, events), next).replaced == CountedAll(t, events).replaced
  {
    if next.Draw? {
      DrawnLatelyIff(t, events, next.now);
    }
  }
}

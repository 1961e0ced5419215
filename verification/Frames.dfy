/** A camera's newest frame, handed over by its receiver and taken by the draw
    loop: the buffers are swapped round and no frame is copied again. */
module Frames {
  import opened Common

  type U32 = x: int | 0 <= x < 0x1_0000_0000

  const SHOWN_FOR: nat := 500 * NANOS_IN_A_MILLISECOND
  const MOST_MISSED: nat := 1_000
  const CAMERAS: nat := 3

  /** A frame: `stride` bytes a row, the last row to its own end. */
  datatype Picture = Picture(bytes: seq<Byte>, width: U32, height: U32, stride: U32)

  /** A camera's newest frame: its buffer, its shape, and how many frames were
      handed over so far. */
  datatype Newest<B> = Newest(buffer: B, width: U32, height: U32, stride: U32, sequence: nat, arrived: Option<Moment>)

  /** The frame the draw loop holds. */
  datatype Front<B> = Front(buffer: B, width: U32, height: U32, stride: U32, sequence: nat, drawnAt: Option<Moment>)

  /** What a draw took of a camera: how long a new frame waited and how many
      before it were never taken; or the last one again. */
  datatype Took = Took(newFrame: Option<(nat, nat)>, again: bool)

  datatype Taken<B> = Taken(newest: Newest<B>, front: Front<B>, took: Took, arrives: bool)

  const NOTHING_TOOK := Took(None, false)

  predicate Recent(at: Option<Moment>, now: Moment) { at.Some? && Since(at.value, now) < SHOWN_FOR }

  /** The swap of a hand-over: the receiver's filled buffer for the old one. */
  function HandedOver<B>(n: Newest<B>, filled: B, width: U32, height: U32, stride: U32, at: Moment): Newest<B> {
    Newest(filled, width, height, stride, n.sequence + 1, Some(at))
  }

  function Missed(newest: nat, front: nat): nat {
    var missed := if newest - front - 1 < 0 then 0 else newest - front - 1;
    if missed < MOST_MISSED then missed else MOST_MISSED
  }

  /** One camera's part of a draw. */
  function TakenBy<B>(n: Newest<B>, f: Front<B>, shown: bool, now: Moment): Taken<B> {
    if !shown then Taken(n, f.(drawnAt := None), NOTHING_TOOK, false)
    else if !Recent(n.arrived, now) then Taken(n, f, NOTHING_TOOK, false)
    else
      var unbroken := Recent(f.drawnAt, now);
      if n.sequence != f.sequence then
        var missed := if unbroken then Missed(n.sequence, f.sequence) else 0;
        Taken(n.(buffer := f.buffer),
              Front(n.buffer, n.width, n.height, n.stride, n.sequence, Some(now)),
              Took(Some((Since(n.arrived.value, now), missed)), false), true)
      else
        Taken(n, f.(drawnAt := Some(now)), Took(None, unbroken), true)
  }

  predicate Shows(scene: seq<nat>, camera: nat) { exists i :: 0 <= i < |scene| && scene[i] == camera }

  // ----- What is counted

  /** A camera's frames since some moment: those taken, and those counted as
      replaced before they were taken. */
  datatype Tally<B> = Tally(newest: Newest<B>, front: Front<B>, received: nat, replaced: nat)

  datatype Event<B> =
    | Arrival(filled: B, width: U32, height: U32, stride: U32, at: Moment)
    | Draw(shown: bool, now: Moment, presented: bool)

  /** A draw takes what it takes before it is presented, or is not: for want of a
      surface, or when the renderer fails. `Counts::add` counts it only if it was. */
  function Counted<B>(t: Tally<B>, e: Event<B>): Tally<B> {
    match e
    case Arrival(filled, width, height, stride, at) =>
      t.(newest := HandedOver(t.newest, filled, width, height, stride, at))
    case Draw(shown, now, presented) =>
      var taken := TakenBy(t.newest, t.front, shown, now);
      var newFrame := taken.took.newFrame;
      var counts := presented && newFrame.Some?;
      Tally(taken.newest, taken.front,
            t.received + (if counts then 1 else 0),
            t.replaced + (if counts then newFrame.value.1 else 0))
  }

  function CountedAll<B>(t: Tally<B>, events: seq<Event<B>>): Tally<B> {
    if |events| == 0 then t else Counted(CountedAll(t, events[..|events| - 1]), events[|events| - 1])
  }

  /** A draw takes a new frame. */
  predicate TakesNew<B>(t: Tally<B>, e: Event<B>) {
    e.Draw? && e.shown && Recent(t.newest.arrived, e.now) && t.newest.sequence != t.front.sequence
  }

  /** A draw that takes a new frame is presented; and the camera has been drawn
      without a break and no more than a thousand frames were missed, or none
      was. */
  predicate CountsExactly<B>(t: Tally<B>, e: Event<B>) {
    TakesNew(t, e) ==>
      && e.presented
      && (|| t.newest.sequence == t.front.sequence + 1
          || (Recent(t.front.drawnAt, e.now) && t.newest.sequence <= t.front.sequence + 1 + MOST_MISSED))
  }

  /** A draw counts as taken and replaced exactly how far it advances, if and
      only if it takes nothing new, or it is presented, and the camera was drawn
      without a break and no more than a thousand frames were missed, or none was. */
  lemma DrawCountsExactly<B>(t: Tally<B>, e: Event<B>)
    requires t.front.sequence <= t.newest.sequence
    ensures var u := Counted(t, e);
            && u.front.sequence <= u.newest.sequence
            && ((u.received + u.replaced) - (t.received + t.replaced) == u.front.sequence - t.front.sequence
                <==> CountsExactly(t, e))
  {
  }

  /** How far a draw takes the camera without counting it: all the way when it is
      not presented; and what it misses beyond a thousand, or after a break. */
  function Uncounted<B>(t: Tally<B>, e: Event<B>): nat
    requires t.front.sequence <= t.newest.sequence
  {
    if !TakesNew(t, e) then 0
    else
      var advance := t.newest.sequence - t.front.sequence;
      if !e.presented then advance
      else if Recent(t.front.drawnAt, e.now) then advance - 1 - Missed(t.newest.sequence, t.front.sequence)
      else advance - 1
  }

  function UncountedAll<B>(t: Tally<B>, events: seq<Event<B>>): nat
    requires t.front.sequence <= t.newest.sequence
  {
    if |events| == 0 then 0
    else
      var n := |events| - 1;
      NeverAhead(t, events[..n]);
      UncountedAll(t, events[..n]) + Uncounted(CountedAll(t, events[..n]), events[n])
  }

  lemma {:induction false} NeverAhead<B>(t: Tally<B>, events: seq<Event<B>>)
    requires t.front.sequence <= t.newest.sequence
    ensures CountedAll(t, events).front.sequence <= CountedAll(t, events).newest.sequence
  {
    if |events| > 0 {
      NeverAhead(t, events[..|events| - 1]);
    }
  }

  /** A frame is taken by a draw that is not presented, and the next draw reads as
      unbroken: of two frames handed over one is taken uncounted, one is counted as
      taken, and none as replaced. */
  lemma ADrawNotPresentedIsNotCounted<B>(a: B, b: B, now: Moment)
    ensures exists t: Tally<B>, events :: |events| == 4 && events[1] == Draw(true, now, false)
              && t.received == t.replaced == 0 && t.newest.sequence == t.front.sequence
              && var u := CountedAll(t, events);
              && !CountsExactly(CountedAll(t, events[..1]), events[1])
              && CountsExactly(CountedAll(t, events[..3]), events[3])
              && u.front.sequence == t.front.sequence + 2 && u.received == 1 && u.replaced == 0
  {
    var t := Tally(Newest(a, 0, 0, 0, 0, None), Front(b, 0, 0, 0, 0, None), 0, 0);
    var arrival := Arrival(a, 0, 0, 0, now);
    var lost, drawn := Draw(true, now, false), Draw(true, now, true);
    var events := [arrival, lost, arrival, drawn];
    assert events[..1] == [arrival] && events[..2] == [arrival, lost] && events[..3] == [arrival, lost, arrival];
    assert [arrival][..0] == [] && [arrival, lost][..1] == [arrival];
    assert [arrival, lost, arrival][..2] == [arrival, lost];
    var t1 := Counted(t, arrival);
    var t2 := Counted(t1, lost);
    var t3 := Counted(t2, arrival);
    assert CountedAll(t, events[..1]) == t1;
    assert CountedAll(t, events[..2]) == t2;
    assert CountedAll(t, events[..3]) == t3;
    assert CountedAll(t, events) == Counted(t3, drawn);
  }

  function Arrivals<B>(events: seq<Event<B>>): nat {
    if |events| == 0 then 0
    else Arrivals(events[..|events| - 1]) + (if events[|events| - 1].Arrival? then 1 else 0)
  }

  /** Over any events at all: what was taken, what was counted as replaced, what
      went uncounted and what still waits are together what waited at first and
      what was handed over. */
  lemma {:induction false} EveryFrameIsAccountedFor<B>(t: Tally<B>, events: seq<Event<B>>)
    requires t.front.sequence <= t.newest.sequence
    ensures var u := CountedAll(t, events);
            && u.front.sequence <= u.newest.sequence == t.newest.sequence + Arrivals(events)
            && u.received + u.replaced + UncountedAll(t, events)
               == t.received + t.replaced + (u.front.sequence - t.front.sequence)
  {
    if |events| > 0 {
      EveryFrameIsAccountedFor(t, events[..|events| - 1]);
    }
  }

  lemma UncountedIffNotExact<B>(t: Tally<B>, e: Event<B>)
    requires t.front.sequence <= t.newest.sequence
    ensures Uncounted(t, e) == 0 <==> CountsExactly(t, e)
  {
  }

  lemma {:induction false} NoneUncounted<B>(t: Tally<B>, events: seq<Event<B>>)
    requires t.front.sequence <= t.newest.sequence
    requires forall i | 0 <= i < |events| :: CountsExactly(CountedAll(t, events[..i]), events[i])
    ensures UncountedAll(t, events) == 0
  {
    if |events| > 0 {
      var n := |events| - 1;
      assert forall i | 0 <= i < n :: events[..n][..i] == events[..i];
      NoneUncounted(t, events[..n]);
      NeverAhead(t, events[..n]);
      UncountedIffNotExact(CountedAll(t, events[..n]), events[n]);
    }
  }

  /** While draws are presented, without a break and with at most a thousand frames
      missed at a time: what was taken, what was counted as replaced and what
      still waits are together what waited at first and what was handed over. */
  lemma NothingGoesUncounted<B>(t: Tally<B>, events: seq<Event<B>>)
    requires t.front.sequence <= t.newest.sequence
    requires forall i | 0 <= i < |events| :: CountsExactly(CountedAll(t, events[..i]), events[i])
    ensures var u := CountedAll(t, events);
            && u.front.sequence <= u.newest.sequence == t.newest.sequence + Arrivals(events)
            && u.received + u.replaced == t.received + t.replaced + (u.front.sequence - t.front.sequence)
            && (u.received + u.replaced) + (u.newest.sequence - u.front.sequence)
               == (t.received + t.replaced) + (t.newest.sequence - t.front.sequence) + Arrivals(events)
  {
    EveryFrameIsAccountedFor(t, events);
    NoneUncounted(t, events);
  }

  // ----- The code

  /** A buffer that is filled in place and handed round. */
  class Buffer {
    var data: seq<Byte>

    constructor ()
      ensures data == []
    {
      data := [];
    }
  }

  class NewestSlot {
    var bytes: Buffer
    var width: U32
    var height: U32
    var stride: U32
    var sequence: nat
    var arrived: Option<Moment>

    ghost function Value(): Newest<Buffer>
      reads this
    {
      Newest(bytes, width, height, stride, sequence, arrived)
    }

    constructor ()
      ensures fresh(bytes) && bytes.data == [] && Value() == Newest(bytes, 0, 0, 0, 0, None)
    {
      bytes := new Buffer();
      width, height, stride, sequence, arrived := 0, 0, 0, 0, None;
    }
  }

  class FrontSlot {
    var bytes: Buffer
    var width: U32
    var height: U32
    var stride: U32
    var sequence: nat
    var drawnAt: Option<Moment>

    ghost function Value(): Front<Buffer>
      reads this
    {
      Front(bytes, width, height, stride, sequence, drawnAt)
    }

    constructor ()
      ensures fresh(bytes) && bytes.data == [] && Value() == Front(bytes, 0, 0, 0, 0, None)
    {
      bytes := new Buffer();
      width, height, stride, sequence, drawnAt := 0, 0, 0, 0, None;
    }
  }

  /** A receiver's side: `spare` is the buffer it fills next. */
  class Giver {
    var spare: Buffer

    constructor ()
      ensures fresh(spare) && spare.data == []
    {
      spare := new Buffer();
    }

    /** A frame that was checked: copied into the spare buffer, which is swapped
        for the newest frame's. The frame that stood there is not touched. */
    method HandOver(newest: NewestSlot, picture: seq<Byte>, width: U32, height: U32, stride: U32, at: Moment)
      requires spare != newest.bytes
      modifies this, spare, newest
      ensures newest.Value() == HandedOver(old(newest.Value()), old(spare), width, height, stride, at)
      ensures spare == old(newest.bytes)
      ensures newest.bytes.data == picture
      ensures spare.data == old(newest.bytes.data)
    {
      spare.data := [];
      spare.data := spare.data + picture;
      newest.bytes, spare := spare, newest.bytes;
      newest.width := width;
      newest.height := height;
      newest.stride := stride;
      newest.sequence := newest.sequence + 1;
      newest.arrived := Some(at);
    }
  }

  /** The three cameras' slots are all different objects. */
  ghost predicate Apart(frames: seq<NewestSlot>, fronts: seq<FrontSlot>) {
    && |frames| == |fronts| == CAMERAS
    && (forall i, j :: 0 <= i < j < CAMERAS ==> frames[i] != frames[j] && fronts[i] != fronts[j])
  }

  twostate predicate TakenFor(frames: seq<NewestSlot>, fronts: seq<FrontSlot>, scene: seq<nat>, now: Moment, i: nat,
                              arrives: bool, took: Took)
    requires i < |frames| && i < |fronts|
    reads frames[i], fronts[i]
  {
    var taken := TakenBy(old(frames[i].Value()), old(fronts[i].Value()), Shows(scene, i + 1), now);
    && frames[i].Value() == taken.newest
    && fronts[i].Value() == taken.front
    && took == taken.took
    && arrives == taken.arrives
  }

  /** One shown camera's part of `take_received`: a new frame takes the place of
      the one drawn last, by a swap. */
  method TakeOne(newest: NewestSlot, front: FrontSlot, shown: bool, now: Moment) returns (arrives: bool, took: Took)
    modifies newest, front
    ensures var taken := TakenBy(old(newest.Value()), old(front.Value()), shown, now);
            && newest.Value() == taken.newest && front.Value() == taken.front
            && took == taken.took && arrives == taken.arrives
  {
    arrives, took := false, NOTHING_TOOK;
    if !shown {
      front.drawnAt := None;
      return;
    }
    if newest.arrived.None? || Since(newest.arrived.value, now) >= SHOWN_FOR {
      return;
    }
    var landed := newest.arrived.value;
    var unbroken := front.drawnAt.Some? && Since(front.drawnAt.value, now) < SHOWN_FOR;
    if newest.sequence != front.sequence {
      var missed := 0;
      if unbroken {
        missed := if newest.sequence < front.sequence + 1 then 0 else newest.sequence - front.sequence - 1;
        missed := if missed < MOST_MISSED then missed else MOST_MISSED;
      }
      took := Took(Some((Since(landed, now), missed)), false);
      newest.bytes, front.bytes := front.bytes, newest.bytes;
      front.width := newest.width;
      front.height := newest.height;
      front.stride := newest.stride;
      front.sequence := newest.sequence;
    } else {
      took := Took(None, unbroken);
    }
    front.drawnAt := Some(now);
    arrives := true;
  }

  /** `take_received`: each camera's newest frame for a draw. */
  method TakeReceived(frames: seq<NewestSlot>, fronts: seq<FrontSlot>, scene: seq<nat>, now: Moment)
    returns (arrives: seq<bool>, took: seq<Took>)
    requires Apart(frames, fronts)
    modifies frames, fronts
    ensures |arrives| == |took| == CAMERAS
    ensures forall i :: 0 <= i < CAMERAS ==> TakenFor(frames, fronts, scene, now, i, arrives[i], took[i])
  {
    arrives, took := [], [];
    for index := 0 to CAMERAS
      invariant |arrives| == |took| == index
      invariant forall i :: 0 <= i < index ==> TakenFor(frames, fronts, scene, now, i, arrives[i], took[i])
      invariant forall i :: index <= i < CAMERAS ==> unchanged(frames[i]) && unchanged(fronts[i])
    {
      var arrived, taken := TakeOne(frames[index], fronts[index], Shows(scene, index + 1), now);
      arrives, took := arrives + [arrived], took + [taken];
    }
  }
}

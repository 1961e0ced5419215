/** When the draw loop draws: in step with the cameras' frames, or on its own
    clock while no camera is live. */
module Pacing {
  import opened Common
  import opened Frames

  const FRAME_NANOS: nat := 33_366_667
  const SETTLE: nat := FRAME_NANOS / 2
  const QUIET: nat := FRAME_NANOS * 2

  /** What the draw loop knows of a camera: whether its frames come, and since
      when a new one waits. */
  datatype Waiting = Waiting(live: bool, newSince: Option<Moment>)

  datatype Why = AllCame | Settled | Quiet | Clock

  datatype Pace = Now(why: Why) | At(moment: Moment)

  /** What is known of one camera as the draw loop wakes. */
  function Known<B>(n: Newest<B>, f: Front<B>, shown: bool, now: Moment): Waiting {
    if !shown || !Recent(n.arrived, now) then Waiting(false, None)
    else Waiting(true, if n.sequence != f.sequence then n.arrived else None)
  }

  predicate AnyLive(cameras: seq<Waiting>) { exists i :: 0 <= i < |cameras| && cameras[i].live }

  predicate HasNew(camera: Waiting) { camera.live && camera.newSince.Some? }

  predicate AllNew(cameras: seq<Waiting>) {
    forall i | 0 <= i < |cameras| && cameras[i].live :: cameras[i].newSince.Some?
  }

  /** When the first of the live cameras' new frames landed. */
  function FirstNew(cameras: seq<Waiting>): (first: Option<Moment>)
    ensures first.None? <==> forall i | 0 <= i < |cameras| :: !HasNew(cameras[i])
    ensures first.Some? ==>
              && (exists i :: 0 <= i < |cameras| && HasNew(cameras[i]) && cameras[i].newSince == first)
              && (forall i | 0 <= i < |cameras| && HasNew(cameras[i]) :: first.value <= cameras[i].newSince.value)
  {
    if |cameras| == 0 then None
    else
      var n := |cameras| - 1;
      var last := cameras[n];
      var others := FirstNew(cameras[..n]);
      if !HasNew(last) then others
      else if others.None? || last.newSince.value < others.value then assert HasNew(cameras[n]); last.newSince
      else others
  }

  function PaceOf(cameras: seq<Waiting>, due: Moment, drewAt: Option<Moment>, now: Moment): Pace {
    if !AnyLive(cameras) then (if now >= due then Now(Clock) else At(due))
    else
      match FirstNew(cameras)
      case Some(first) =>
        if AllNew(cameras) then Now(AllCame)
        else if now >= first + SETTLE then Now(Settled)
        else At(first + SETTLE)
      case None =>
        if drewAt.Some? && now < drewAt.value + QUIET then At(drewAt.value + QUIET) else Now(Quiet)
  }

  /** A wait that is chosen is in the future; and deciding again with the same
      cameras draws if and only if the wait is over, else chooses it again. */
  lemma AWaitEndsInADraw(cameras: seq<Waiting>, due: Moment, drewAt: Option<Moment>, now: Moment, later: Moment)
    requires PaceOf(cameras, due, drewAt, now).At?
    ensures var t := PaceOf(cameras, due, drewAt, now).moment;
            && now < t
            && (PaceOf(cameras, due, drewAt, later).Now? <==> t <= later)
            && (later < t ==> PaceOf(cameras, due, drewAt, later) == At(t))
  {
  }

  /** A live camera's new frame is drawn no later than half a frame after it
      landed; at once, if every live camera has one. */
  lemma ANewFrameWaitsHalfAFrameAtMost(
    cameras: seq<Waiting>, due: Moment, drewAt: Option<Moment>, now: Moment, i: nat)
    requires i < |cameras| && HasNew(cameras[i])
    ensures var pace := PaceOf(cameras, due, drewAt, now);
            && (pace.At? ==> pace.moment <= cameras[i].newSince.value + SETTLE)
            && (pace == Now(AllCame) <==> AllNew(cameras))
            && (cameras[i].newSince.value + SETTLE <= now ==> pace.Now?)
  {
    assert cameras[i].live;
  }

  /** The moment of a draw, exactly. With no camera live, when the own clock's is due;
      with live cameras and none new, two frames after the last draw; with some new
      and some missing, half a frame after the first of them landed; and at once when
      all of them are new, or nothing was drawn yet and none is. */
  lemma TheMomentOfADraw(cameras: seq<Waiting>, due: Moment, drewAt: Option<Moment>, now: Moment, i: nat)
    requires i < |cameras| && HasNew(cameras[i])
    requires forall j | 0 <= j < |cameras| && HasNew(cameras[j]) ::
               cameras[i].newSince.value <= cameras[j].newSince.value
    ensures var pace, settled := PaceOf(cameras, due, drewAt, now), cameras[i].newSince.value + FRAME_NANOS / 2;
            if forall j | 0 <= j < |cameras| && cameras[j].live :: cameras[j].newSince.Some? then pace == Now(AllCame)
            else if settled <= now then pace == Now(Settled)
            else pace == At(settled)
  {
    assert cameras[i].live;
  }

  lemma TheMomentOfAQuietDraw(cameras: seq<Waiting>, due: Moment, drewAt: Option<Moment>, now: Moment)
    requires forall j | 0 <= j < |cameras| :: !HasNew(cameras[j])
    ensures var pace := PaceOf(cameras, due, drewAt, now);
            if forall j | 0 <= j < |cameras| :: !cameras[j].live then
              pace == if due <= now then Now(Clock) else At(due)
            else if drewAt.None? then pace == Now(Quiet)
            else
              var quiet := drewAt.value + 2 * FRAME_NANOS;
              pace == if quiet <= now then Now(Quiet) else At(quiet)
  {
  }

  /** A new frame is seen exactly when a draw at that moment would take it, and
      once it is taken none is new until another is handed over. */
  lemma SeesWhatADrawTakes<B>(n: Newest<B>, f: Front<B>, shown: bool, now: Moment)
    ensures var taken := TakenBy(n, f, shown, now);
            && (Known(n, f, shown, now).newSince.Some? <==> taken.took.newFrame.Some?)
            && (Known(n, f, shown, now).live <==> taken.arrives)
            && Known(taken.newest, taken.front, shown, now).newSince.None?
  {
  }

  // ----- The draw loop's own clock

  datatype Timer = Timer(due: Moment, drewAt: Option<Moment>, drewBy: Option<Why>, late: nat)

  function DrewAt(t: Timer, why: Why, now: Moment): Timer {
    if why == Clock && t.drewBy == Some(Clock) then
      if t.due + FRAME_NANOS < now then Timer(now + FRAME_NANOS, Some(now), Some(why), t.late + 1)
      else Timer(t.due + FRAME_NANOS, Some(now), Some(why), t.late)
    else Timer(now + FRAME_NANOS, Some(now), Some(why), t.late)
  }

  /** What a wake finds: the link, and what is known of the cameras at first, and again after a draw. */
  datatype Found = Found(connected: bool, first: seq<Waiting>, again: seq<Waiting>, now: Moment)

  predicate Draws(t: Timer, w: Found) { w.connected && PaceOf(w.first, t.due, t.drewAt, w.now).Now? }

  function Woken(t: Timer, w: Found): Timer {
    if !w.connected then t.(due := w.now + FRAME_NANOS)
    else if Draws(t, w) then DrewAt(t, PaceOf(w.first, t.due, t.drewAt, w.now).why, w.now)
    else t
  }

  function NextWake(t: Timer, w: Found): Moment {
    if !w.connected then w.now + FRAME_NANOS
    else
      var u := Woken(t, w);
      match PaceOf(w.again, u.due, u.drewAt, w.now)
      case At(at) => at
      case Now(_) => w.now
  }

  /** After a draw the loop wakes again at once if and only if a live camera has
      a new frame that is to be drawn already, or it draws on its own clock and
      the next draw is due at this very moment. */
  lemma WakesAtOnceIff(t: Timer, w: Found)
    requires Draws(t, w)
    ensures NextWake(t, w) >= w.now
    ensures NextWake(t, w) == w.now <==>
              if AnyLive(w.again) then
                && FirstNew(w.again).Some?
                && (AllNew(w.again) || FirstNew(w.again).value + SETTLE <= w.now)
              else
                && PaceOf(w.first, t.due, t.drewAt, w.now).why.Clock?
                && t.drewBy == Some(Clock) && t.due + FRAME_NANOS == w.now
  {
    var u := Woken(t, w);
    var again := PaceOf(w.again, u.due, u.drewAt, w.now);
    if again.At? {
      AWaitEndsInADraw(w.again, u.due, u.drewAt, w.now, w.now);
    }
  }

  predicate IsQuiet(cameras: seq<Waiting>) {
    AnyLive(cameras) && forall j | 0 <= j < |cameras| :: !HasNew(cameras[j])
  }

  /** While cameras are live and none has a new frame: after any draw the loop is to
      wake two frames later, whatever wakes it sooner draws nothing and leaves that
      moment as it is, and at that moment it draws. */
  lemma QuietCamerasAreDrawnEveryTwoFrames(t: Timer, drawn: Found, w: Found)
    requires Draws(t, drawn) && IsQuiet(drawn.again)
    requires w.connected && IsQuiet(w.first) && w.again == w.first && drawn.now <= w.now
    ensures var u, quiet := Woken(t, drawn), drawn.now + 2 * FRAME_NANOS;
            && NextWake(t, drawn) == quiet
            && (Draws(u, w) <==> quiet <= w.now)
            && (!Draws(u, w) ==> Woken(u, w) == u && NextWake(u, w) == quiet)
            && (Draws(u, w) ==> NextWake(u, w) == w.now + 2 * FRAME_NANOS)
  {
    var u := Woken(t, drawn);
    assert u.drewAt == Some(drawn.now);
    TheMomentOfAQuietDraw(drawn.again, u.due, u.drewAt, drawn.now);
    TheMomentOfAQuietDraw(w.first, u.due, u.drewAt, w.now);
    TheMomentOfAQuietDraw(w.again, Woken(u, w).due, Woken(u, w).drewAt, w.now);
  }

  /** After a draw in step with the cameras, the own clock draws a frame later at the
      earliest, if no camera is live by then. */
  lemma TheClockWaitsAFrame(t: Timer, drawn: Found, w: Found)
    requires Draws(t, drawn) && AnyLive(drawn.first) && w.connected && !AnyLive(w.first)
    ensures Draws(Woken(t, drawn), w) <==> drawn.now + FRAME_NANOS <= w.now
  {
  }

  /** A wake with the link lost draws nothing and puts the own clock off to a frame
      later; so the time the link was lost is not counted as a late draw: only what
      the next draw comes more than two frames after that wake. */
  lemma ALostLinkIsNotLate(t: Timer, lost: Found, w: Found)
    requires !lost.connected && w.connected && !AnyLive(w.first)
    ensures var u := Woken(t, lost);
            && u.late == t.late && u.drewAt == t.drewAt && NextWake(t, lost) == lost.now + FRAME_NANOS
            && (Draws(u, w) <==> lost.now + FRAME_NANOS <= w.now)
            && (Woken(u, w).late == u.late + 1
                <==> t.drewBy == Some(Clock) && lost.now + 2 * FRAME_NANOS < w.now)
  {
  }

  /** The own clock's case, in a run from the start: no camera is live, and its
      second draw comes a frame late to the nanosecond. */
  lemma TheClockMayWakeAtOnce()
    ensures exists wakes: seq<Found>, late: Found ::
              && InTime(wakes + [late], 0) && !AnyLive(late.first) && !AnyLive(late.again)
              && var t := WokenAll(Timer(0, None, None, 0), wakes);
              && Draws(t, late) && NextWake(t, late) == late.now
  {
    var none := [Waiting(false, None), Waiting(false, None), Waiting(false, None)];
    var first, late := Found(true, none, none, 0), Found(true, none, none, 2 * FRAME_NANOS);
    var start := Timer(0, None, None, 0);
    assert !AnyLive(none);
    assert [first][1..] == [] && WokenAll(start, [first]) == Woken(start, first);
    assert Woken(start, first) == Timer(FRAME_NANOS, Some(0), Some(Clock), 0);
    assert ([first] + [late])[1..] == [late] && [late][1..] == [];
    assert InTime([first] + [late], 0);
    WakesAtOnceIff(Woken(start, first), late);
  }

  predicate InTime(wakes: seq<Found>, from: Moment)
    decreases |wakes|
  {
    |wakes| == 0 || (from <= wakes[0].now && InTime(wakes[1..], wakes[0].now))
  }

  function WokenAll(t: Timer, wakes: seq<Found>): Timer
    decreases |wakes|
  {
    if |wakes| == 0 then t else WokenAll(Woken(t, wakes[0]), wakes[1..])
  }

  /** No draw of the run but the own clock's. */
  predicate OnlyClock(t: Timer, wakes: seq<Found>)
    decreases |wakes|
  {
    |wakes| == 0 ||
    ((Draws(t, wakes[0]) ==> PaceOf(wakes[0].first, t.due, t.drewAt, wakes[0].now).why.Clock?)
     && OnlyClock(Woken(t, wakes[0]), wakes[1..]))
  }

  function HowManyDraws(t: Timer, wakes: seq<Found>): nat
    decreases |wakes|
  {
    if |wakes| == 0 then 0
    else (if Draws(t, wakes[0]) then 1 else 0) + HowManyDraws(Woken(t, wakes[0]), wakes[1..])
  }

  /** The clock drew last, its next draw is `n` frames after `start` or later,
      and no more than a frame after the last wake. */
  predicate Paced(t: Timer, start: Moment, n: nat, wokeLast: Moment) {
    t.drewBy == Some(Clock) && start + n * FRAME_NANOS <= t.due <= wokeLast + FRAME_NANOS
  }

  lemma AFirstDrawIsPaced(t: Timer, now: Moment)
    requires t.drewBy != Some(Clock)
    ensures Paced(DrewAt(t, Clock, now), now, 1, now)
    ensures DrewAt(t, Clock, now).due == now + FRAME_NANOS
  {
  }

  lemma AWakeKeepsPace(t: Timer, w: Found, start: Moment, n: nat, wokeLast: Moment)
    requires Paced(t, start, n, wokeLast) && wokeLast <= w.now && OnlyClock(t, [w])
    ensures var u := Woken(t, w);
            && Paced(u, start, if Draws(t, w) then n + 1 else n, w.now)
            && (Draws(t, w) ==> u.drewAt == Some(w.now) && start + n * FRAME_NANOS <= w.now)
            && (!Draws(t, w) ==> u.drewAt == t.drewAt)
  {
    assert (n + 1) * FRAME_NANOS == n * FRAME_NANOS + FRAME_NANOS;
  }

  /** Draws on the own clock in a row, with any wakes between them and the link
      lost and found again: `n` of them span at least n - 1 frames. */
  lemma {:induction false} ClockDrawsKeepTheirDistance(
    t: Timer, wakes: seq<Found>, start: Moment, n: nat, wokeLast: Moment)
    requires Paced(t, start, n, wokeLast) && InTime(wakes, wokeLast) && OnlyClock(t, wakes) && n > 0
    requires t.drewAt.Some? && start + (n - 1) * FRAME_NANOS <= t.drewAt.value
    ensures var u, draws := WokenAll(t, wakes), HowManyDraws(t, wakes);
            u.drewAt.Some? && start + (n + draws - 1) * FRAME_NANOS <= u.drewAt.value
    decreases |wakes|
  {
    if |wakes| > 0 {
      var w := wakes[0];
      AWakeKeepsPace(t, w, start, n, wokeLast);
      ClockDrawsKeepTheirDistance(Woken(t, w), wakes[1..], start, if Draws(t, w) then n + 1 else n, w.now);
    }
  }

  /** With the link kept, the next draw is due exactly on the grid of whole
      frames from the first if and only if none was late by more than a frame. */
  lemma {:induction false} ClockDrawsAreOnTheGridIff(t: Timer, wakes: seq<Found>, start: Moment, n: nat, late: nat)
    requires t.drewBy == Some(Clock) && OnlyClock(t, wakes) && forall i | 0 <= i < |wakes| :: wakes[i].connected
    requires start + n * FRAME_NANOS <= t.due && late <= t.late
    requires t.late == late <==> t.due == start + n * FRAME_NANOS
    ensures var u, draws := WokenAll(t, wakes), HowManyDraws(t, wakes);
            && start + (n + draws) * FRAME_NANOS <= u.due && late <= u.late
            && (u.late == late <==> u.due == start + (n + draws) * FRAME_NANOS)
    decreases |wakes|
  {
    if |wakes| > 0 {
      var w := wakes[0];
      assert (n + 1) * FRAME_NANOS == n * FRAME_NANOS + FRAME_NANOS;
      assert forall i | 0 <= i < |wakes[1..]| :: wakes[1..][i] == wakes[i + 1];
      ClockDrawsAreOnTheGridIff(Woken(t, w), wakes[1..], start, if Draws(t, w) then n + 1 else n, late);
    }
  }

  // ----- The code

  class Drawer {
    var due: Moment
    var drewAt: Option<Moment>
    var drewBy: Option<Why>
    var late: nat

    function State(): Timer
      reads this
    {
      Timer(due, drewAt, drewBy, late)
    }

    constructor (now: Moment)
      ensures State() == Timer(now, None, None, 0)
    {
      due, drewAt, drewBy, late := now, None, None, 0;
    }

    method Drew(why: Why, now: Moment)
      modifies this
      ensures State() == DrewAt(old(State()), why, now)
    {
      var clocked := drewBy == Some(Clock);
      drewAt := Some(now);
      drewBy := Some(why);
      if why == Clock && clocked {
        due := due + FRAME_NANOS;
        if due < now {
          late := late + 1;
          due := now + FRAME_NANOS;
        }
      } else {
        due := now + FRAME_NANOS;
      }
    }

    /** `w` holds what this wake finds: the link, and the cameras before and after
        a draw. When to wake next. */
    method Wake(w: Found) returns (next: Moment)
      modifies this
      ensures State() == Woken(old(State()), w) && next == NextWake(old(State()), w)
    {
      if !w.connected {
        due := w.now + FRAME_NANOS;
        return due;
      }
      var pace := PaceOf(w.first, due, drewAt, w.now);
      if pace.Now? {
        Drew(pace.why, w.now);
      }
      match PaceOf(w.again, due, drewAt, w.now)
      case At(at) => next := at;
      case Now(_) => next := w.now;
    }
  }
}

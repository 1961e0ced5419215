/** Runs of the draw loop against the frames that land, while the link is kept and
    one scene shows: each frame rings the bell, a wake looks, takes what it draws
    and chooses the next, and no wake comes more than `late` after it is due. How
    long a wake takes is part of that. */
module PacingRuns {
  import opened Common
  import opened Frames
  import opened Pacing

  datatype Camera = Camera(newest: Newest<nat>, front: Front<nat>)

  /** `next` is what the last wake chose, `rung` when a frame first landed since. */
  datatype System = System(timer: Timer, cameras: seq<Camera>, next: Moment, rung: Option<Moment>, clock: Moment)

  /** The scene, by camera, and how late a wake may be. */
  datatype Setting = Setting(shown: seq<bool>, late: nat)

  datatype Step =
    | Land(c: nat, filled: nat, width: U32, height: U32, stride: U32, at: Moment)
    | Wake(at: Moment)

  predicate Fits(s: System, setting: Setting) { |s.cameras| == |setting.shown| }

  function Due(s: System): Moment { if s.rung.Some? && s.rung.value < s.next then s.rung.value else s.next }

  predicate Enabled(s: System, setting: Setting, step: Step) {
    s.clock <= step.at <= Due(s) + setting.late && (step.Land? ==> step.c < |s.cameras|)
  }

  function Look(cameras: seq<Camera>, setting: Setting, now: Moment): seq<Waiting>
    requires |cameras| == |setting.shown|
  {
    seq(|cameras|, i requires 0 <= i < |cameras| => Known(cameras[i].newest, cameras[i].front, setting.shown[i], now))
  }

  function Take(cameras: seq<Camera>, setting: Setting, now: Moment): seq<Camera>
    requires |cameras| == |setting.shown|
  {
    seq(|cameras|, i requires 0 <= i < |cameras| =>
          var taken := TakenBy(cameras[i].newest, cameras[i].front, setting.shown[i], now);
          Camera(taken.newest, taken.front))
  }

  predicate DrawsNow(s: System, setting: Setting, now: Moment)
    requires Fits(s, setting)
  {
    PaceOf(Look(s.cameras, setting, now), s.timer.due, s.timer.drewAt, now).Now?
  }

  function CamerasAfter(s: System, setting: Setting, now: Moment): seq<Camera>
    requires Fits(s, setting)
  {
    if DrawsNow(s, setting, now) then Take(s.cameras, setting, now) else s.cameras
  }

  /** What a wake finds at first, and again after its draw. */
  function FoundAt(s: System, setting: Setting, now: Moment): Found
    requires Fits(s, setting)
  {
    Found(true, Look(s.cameras, setting, now), Look(CamerasAfter(s, setting, now), setting, now), now)
  }

  function Do(s: System, setting: Setting, step: Step): (t: System)
    requires Fits(s, setting) && Enabled(s, setting, step)
    ensures Fits(t, setting)
  {
    match step
    case Land(c, filled, width, height, stride, at) =>
      var camera := s.cameras[c];
      var newest := HandedOver(camera.newest, filled, width, height, stride, at);
      s.(cameras := s.cameras[c := camera.(newest := newest)],
         rung := if s.rung.Some? then s.rung else Some(at),
         clock := at)
    case Wake(now) =>
      var found := FoundAt(s, setting, now);
      System(Woken(s.timer, found), CamerasAfter(s, setting, now), NextWake(s.timer, found), None, now)
  }

  predicate Possible(s: System, setting: Setting, steps: seq<Step>)
    decreases |steps|
  {
    && Fits(s, setting)
    && (|steps| == 0 || (Enabled(s, setting, steps[0]) && Possible(Do(s, setting, steps[0]), setting, steps[1..])))
  }

  function After(s: System, setting: Setting, steps: seq<Step>): (t: System)
    requires Possible(s, setting, steps)
    ensures Fits(t, setting)
    decreases |steps|
  {
    if |steps| == 0 then s else After(Do(s, setting, steps[0]), setting, steps[1..])
  }

  /** Nothing handed over, and a wake due at once. */
  predicate Initial(s: System) {
    && s.timer == Timer(0, None, None, 0) && s.next == 0 && s.rung.None? && s.clock == 0
    && forall c | 0 <= c < |s.cameras| ::
         s.cameras[c].newest.sequence == s.cameras[c].front.sequence == 0 && s.cameras[c].newest.arrived.None?
  }

  // ----- How long a frame waits

  /** The camera's newest frame, in the scene and not yet taken, landed at `a`. */
  predicate WaitsSince(s: System, setting: Setting, c: nat, a: Moment)
    requires Fits(s, setting)
  {
    && c < |s.cameras| && setting.shown[c]
    && s.cameras[c].newest.sequence != s.cameras[c].front.sequence && s.cameras[c].newest.arrived == Some(a)
  }

  /** A wake comes in time for it: it is due no later than half a frame after. */
  ghost predicate InTime(s: System, setting: Setting)
    requires Fits(s, setting)
  {
    && (s.rung.Some? ==> s.rung.value <= s.clock)
    && forall c: nat, a: nat | WaitsSince(s, setting, c, a) ::
         Due(s) <= a + SETTLE && s.clock <= a + SETTLE + setting.late
  }

  /** A look is late by less than the half second for which frames are shown. */
  predicate IsPrompt(setting: Setting) { SETTLE + setting.late < SHOWN_FOR }

  lemma AWakeDrawsOrIsInTime(s: System, setting: Setting, now: Moment, c: nat, a: Moment)
    requires Fits(s, setting) && Enabled(s, setting, Wake(now)) && IsPrompt(setting) && InTime(s, setting)
    requires WaitsSince(s, setting, c, a)
    ensures now <= a + SETTLE + setting.late
    ensures var t := Do(s, setting, Wake(now));
            if DrawsNow(s, setting, now) then t.cameras[c].front.sequence == t.cameras[c].newest.sequence
               else t.cameras == s.cameras && t.next <= a + SETTLE && now < a + SETTLE
  {
    var look := Look(s.cameras, setting, now);
    assert HasNew(look[c]) && look[c].newSince == Some(a);
    ANewFrameWaitsHalfAFrameAtMost(look, s.timer.due, s.timer.drewAt, now, c);
  }

  lemma TakenWaitsNot(s: System, setting: Setting, now: Moment, c: nat, a: Moment)
    requires Fits(s, setting) && Enabled(s, setting, Wake(now))
    requires WaitsSince(Do(s, setting, Wake(now)), setting, c, a)
    ensures WaitsSince(s, setting, c, a)
  {
  }

  lemma DoStaysInTime(s: System, setting: Setting, step: Step)
    requires Fits(s, setting) && Enabled(s, setting, step) && IsPrompt(setting) && InTime(s, setting)
    ensures InTime(Do(s, setting, step), setting)
  {
    var t := Do(s, setting, step);
    forall c: nat, a: nat | WaitsSince(t, setting, c, a)
      ensures Due(t) <= a + SETTLE && t.clock <= a + SETTLE + setting.late
    {
      if step.Wake? {
        TakenWaitsNot(s, setting, step.at, c, a);
        AWakeDrawsOrIsInTime(s, setting, step.at, c, a);
      } else if c != step.c {
        assert WaitsSince(s, setting, c, a);
      }
    }
  }

  lemma {:induction false} RunStaysInTime(s: System, setting: Setting, steps: seq<Step>)
    requires Possible(s, setting, steps) && IsPrompt(setting) && InTime(s, setting)
    ensures InTime(After(s, setting, steps), setting)
    decreases |steps|
  {
    if |steps| > 0 {
      DoStaysInTime(s, setting, steps[0]);
      RunStaysInTime(Do(s, setting, steps[0]), setting, steps[1..]);
    }
  }

  /** In every run whose wakes are prompt, no camera of the scene has a newest frame
      that waits, not taken, for longer than half a frame and the lateness. */
  lemma NoNewestFrameWaitsLonger(s: System, setting: Setting, steps: seq<Step>, c: nat, a: Moment)
    requires Initial(s) && Possible(s, setting, steps) && IsPrompt(setting)
    requires WaitsSince(After(s, setting, steps), setting, c, a)
    ensures After(s, setting, steps).clock <= a + SETTLE + setting.late
  {
    RunStaysInTime(s, setting, steps);
  }

  // ----- A frame that is replaced

  lemma DoReplacesOrKeeps(s: System, setting: Setting, step: Step, c: nat)
    requires Fits(s, setting) && Enabled(s, setting, step) && c < |s.cameras|
    ensures var t := Do(s, setting, step);
            && s.cameras[c].newest.sequence <= t.cameras[c].newest.sequence
            && (s.cameras[c].newest.sequence == t.cameras[c].newest.sequence ==>
                  t.cameras[c].newest.arrived == s.cameras[c].newest.arrived)
  {
  }

  lemma {:induction false} RunReplacesOrKeeps(s: System, setting: Setting, steps: seq<Step>, c: nat)
    requires Possible(s, setting, steps) && c < |s.cameras|
    ensures var t := After(s, setting, steps);
            && s.cameras[c].newest.sequence <= t.cameras[c].newest.sequence
            && (s.cameras[c].newest.sequence == t.cameras[c].newest.sequence ==>
                  t.cameras[c].newest.arrived == s.cameras[c].newest.arrived)
    decreases |steps|
  {
    if |steps| > 0 {
      DoReplacesOrKeeps(s, setting, steps[0], c);
      RunReplacesOrKeeps(Do(s, setting, steps[0]), setting, steps[1..], c);
    }
  }

  /** So a camera's new frame is taken within that time, unless a newer one took its
      place: along any such run, when more than that has passed since it landed, the
      camera has been drawn up to its newest frame, or has a newer one. */
  lemma TakenInTimeOrReplaced(s: System, setting: Setting, before: seq<Step>, steps: seq<Step>, c: nat, a: Moment)
    requires Initial(s) && IsPrompt(setting) && Possible(s, setting, before)
    requires var t := After(s, setting, before); WaitsSince(t, setting, c, a) && Possible(t, setting, steps)
    ensures var t, u := After(s, setting, before), After(After(s, setting, before), setting, steps);
            c < |u.cameras| &&
            (a + SETTLE + setting.late < u.clock ==>
              || u.cameras[c].front.sequence == u.cameras[c].newest.sequence
              || t.cameras[c].newest.sequence < u.cameras[c].newest.sequence)
  {
    var t := After(s, setting, before);
    RunStaysInTime(s, setting, before);
    RunStaysInTime(t, setting, steps);
    RunReplacesOrKeeps(t, setting, steps, c);
    var u := After(t, setting, steps);
    assert u.cameras[c].newest.arrived == Some(a) && u.cameras[c].front.sequence != u.cameras[c].newest.sequence ==>
        WaitsSince(u, setting, c, a);
  }

  // ----- A camera that is too fast

  /** Two cameras in the scene: the first has a new frame, landed at `a`, and the
      second is live, its last frame, landed at `b`, taken. */
  predicate IsHeldOff(s: System, setting: Setting, a: Moment, b: Moment) {
    && setting.shown == [true, true] && |s.cameras| == 2
    && WaitsSince(s, setting, 0, a)
    && s.cameras[0].front.sequence < s.cameras[0].newest.sequence
    && s.cameras[1].newest.sequence == s.cameras[1].front.sequence && s.cameras[1].newest.arrived == Some(b)
    && s.next == a + SETTLE && s.rung.None? && s.clock == a
  }

  /** Another frame of the first camera, no later than the draw would come, puts
      the draw off. */
  lemma AnotherFrameHoldsOff(s: System, setting: Setting, a: Moment, b: Moment, d: nat)
    requires IsHeldOff(s, setting, a, b) && d <= SETTLE && b <= a && a + d < b + SHOWN_FOR
    ensures var land := Land(0, 0, 0, 0, 0, a + d);
            && Enabled(s, setting, land)
            && Enabled(Do(s, setting, land), setting, Wake(a + d))
            && var t := Do(Do(s, setting, land), setting, Wake(a + d));
            && IsHeldOff(t, setting, a + d, b) && t.timer == s.timer
            && t.cameras[0].front == s.cameras[0].front
  {
    var t := Do(s, setting, Land(0, 0, 0, 0, 0, a + d));
    var look := Look(t.cameras, setting, a + d);
    assert look[0] == Waiting(true, Some(a + d)) && look[1] == Waiting(true, None);
    assert HasNew(look[0]) && !HasNew(look[1]);
    assert FirstNew(look) == Some(a + d);
  }

  lemma TwoSteps(s: System, setting: Setting, x: Step, y: Step, rest: seq<Step>)
    requires Fits(s, setting) && Enabled(s, setting, x) && Enabled(Do(s, setting, x), setting, y)
    requires Possible(Do(Do(s, setting, x), setting, y), setting, rest)
    ensures Possible(s, setting, [x, y] + rest)
    ensures After(s, setting, [x, y] + rest) == After(Do(Do(s, setting, x), setting, y), setting, rest)
  {
    var steps := [x, y] + rest;
    assert steps[1..] == [y] + rest && steps[1..][1..] == rest;
  }

  /** Still held off, and nothing drawn of the first camera since. */
  predicate StillHeldOff(s: System, t: System, setting: Setting, a: Moment, b: Moment) {
    && IsHeldOff(t, setting, a, b) && t.timer == s.timer
    && |s.cameras| == 2 && t.cameras[0].front == s.cameras[0].front
  }

  /** A camera whose frames come no more than half a frame apart holds the draw off,
      however prompt the wakes, for as long as another one is live without a new
      frame. */
  lemma {:induction false} FastFramesHoldOff(
    s: System, setting: Setting, a: Moment, b: Moment, d: nat, n: nat, end: Moment)
    returns (steps: seq<Step>)
    requires IsHeldOff(s, setting, a, b) && d <= SETTLE && b <= a && end == a + n * d && end < b + SHOWN_FOR
    ensures Possible(s, setting, steps)
    ensures StillHeldOff(s, After(s, setting, steps), setting, end, b)
    decreases n
  {
    steps := [];
    if n > 0 {
      assert n * d == d + (n - 1) * d && (n - 1) * d >= 0;
      AnotherFrameHoldsOff(s, setting, a, b, d);
      var land, wake := Land(0, 0, 0, 0, 0, a + d), Wake(a + d);
      var t := Do(Do(s, setting, land), setting, wake);
      var rest := FastFramesHoldOff(t, setting, a + d, b, d, n - 1, end);
      TwoSteps(s, setting, land, wake, rest);
      steps := [land, wake] + rest;
    }
  }

  /** The second camera alone is drawn, at the start. */
  predicate IsDrawn(s: System, setting: Setting) {
    && setting == Setting([true, true], 0) && |s.cameras| == 2
    && s.cameras[0].newest.sequence == s.cameras[0].front.sequence == 0 && s.cameras[0].newest.arrived.None?
    && s.cameras[1].newest.sequence == s.cameras[1].front.sequence && s.cameras[1].newest.arrived == Some(0)
    && s.timer.drewAt == Some(0) && s.next == QUIET && s.rung.None? && s.clock == 0
  }

  lemma FirstDraw(s: System, setting: Setting)
    requires Initial(s) && |s.cameras| == 2 && setting == Setting([true, true], 0)
    ensures var land := Land(1, 0, 0, 0, 0, 0);
            && Enabled(s, setting, land) && Enabled(Do(s, setting, land), setting, Wake(0))
            && IsDrawn(Do(Do(s, setting, land), setting, Wake(0)), setting)
  {
    var t := Do(s, setting, Land(1, 0, 0, 0, 0, 0));
    var look := Look(t.cameras, setting, 0);
    assert look[0] == Waiting(false, None) && look[1] == Waiting(true, Some(0));
    assert AnyLive(look) && AllNew(look) && HasNew(look[1]);
    var again := Look(Take(t.cameras, setting, 0), setting, 0);
    assert again[0] == Waiting(false, None) && again[1] == Waiting(true, None);
    assert AnyLive(again) && FirstNew(again).None?;
  }

  lemma FirstNewFrame(s: System, setting: Setting)
    requires IsDrawn(s, setting)
    ensures var land := Land(0, 0, 0, 0, 0, 1);
            && Enabled(s, setting, land) && Enabled(Do(s, setting, land), setting, Wake(1))
            && var t := Do(Do(s, setting, land), setting, Wake(1));
            && IsHeldOff(t, setting, 1, 0) && t.timer == s.timer
  {
    var t := Do(s, setting, Land(0, 0, 0, 0, 0, 1));
    var look := Look(t.cameras, setting, 1);
    assert look[0] == Waiting(true, Some(1)) && look[1] == Waiting(true, None);
    assert HasNew(look[0]) && !HasNew(look[1]);
    assert FirstNew(look) == Some(1);
  }

  const STARVED_UNTIL: Moment := 1 + 31 * 16 * NANOS_IN_A_MILLISECOND

  predicate IsStarved(s: System) { s.timer.drewAt == Some(0) && s.clock == STARVED_UNTIL }

  lemma StarvesAfterADraw(s: System, setting: Setting) returns (steps: seq<Step>)
    requires IsDrawn(s, setting)
    ensures Possible(s, setting, steps) && IsStarved(After(s, setting, steps))
  {
    var land := Land(0, 0, 0, 0, 0, 1);
    FirstNewFrame(s, setting);
    var t := Do(Do(s, setting, land), setting, Wake(1));
    var more := FastFramesHoldOff(t, setting, 1, 0, 16 * NANOS_IN_A_MILLISECOND, 31, STARVED_UNTIL);
    TwoSteps(s, setting, land, Wake(1), more);
    steps := [land, Wake(1)] + more;
  }

  /** So the draw may wait nearly half a second after a first new frame landed, in a
      run whose wakes are never late: frames 16 ms apart of one camera, and none new
      of another. */
  lemma AFirstFrameMayWaitLonger(s: System)
    requires Initial(s) && |s.cameras| == 2
    ensures exists steps: seq<Step> :: Possible(s, Setting([true, true], 0), steps)
              && IsStarved(After(s, Setting([true, true], 0), steps))
    ensures STARVED_UNTIL > 1 + 29 * SETTLE
  {
    var setting := Setting([true, true], 0);
    var land := Land(1, 0, 0, 0, 0, 0);
    FirstDraw(s, setting);
    var more := StarvesAfterADraw(Do(Do(s, setting, land), setting, Wake(0)), setting);
    TwoSteps(s, setting, land, Wake(0), more);
  }
}

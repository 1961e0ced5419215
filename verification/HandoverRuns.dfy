/** Whole runs of the hand-over, in any interleaving: what the draw loop holds is
    one frame that was handed over, whole, and its count names it. */
module HandoverRuns {
  import opened Common
  import opened Frames
  import opened Handover

  predicate Possible(s: System, steps: seq<Step>)
    decreases |steps|
  {
    |steps| == 0 || (Formed(s) && Enabled(s, steps[0]) && Possible(Do(s, steps[0]), steps[1..]))
  }

  function After(s: System, steps: seq<Step>): System
    requires Possible(s, steps)
    decreases |steps|
  {
    if |steps| == 0 then s else After(Do(s, steps[0]), steps[1..])
  }

  /** Nothing handed over, nobody receiving, and the draw loop about to wait. */
  predicate Initial(s: System) {
    && Formed(s)
    && s.receivers == map[]
    && !s.landed && !s.mail && s.tellers == 0 && s.loop.Deciding? && !s.looked
    && forall c | 0 <= c < |s.cameras| ::
         var camera := s.cameras[c];
         && camera.handed == [] && camera.seen == 0
         && camera.newest.sequence == 0 && camera.newest.arrived.None? && camera.front.sequence == 0
  }

  /** What the draw loop would draw of a camera. */
  function Held(s: System, c: nat): Picture
    requires Formed(s) && c < |s.cameras|
  {
    var f := s.cameras[c].front;
    Picture(s.buffers[f.buffer], f.width, f.height, f.stride)
  }

  lemma {:induction false} RunKeepsWhole(s: System, steps: seq<Step>)
    requires Possible(s, steps) && AllWhole(s)
    ensures AllWhole(After(s, steps))
    decreases |steps|
  {
    if |steps| > 0 {
      DoKeepsWhole(s, steps[0]);
      RunKeepsWhole(Do(s, steps[0]), steps[1..]);
    }
  }

  /** Under any interleaving, what the draw loop holds of a camera is exactly
      the one frame handed over under its count, never a mixture of two. */
  lemma HoldsExactlyOneFrame(s: System, steps: seq<Step>, c: nat)
    requires Initial(s) && Possible(s, steps) && c < |After(s, steps).cameras|
    ensures AllWhole(After(s, steps))
    ensures var t := After(s, steps);
            var n := t.cameras[c].front.sequence;
            n <= |t.cameras[c].handed| && (n > 0 ==> Held(t, c) == t.cameras[c].handed[n - 1])
  {
    RunKeepsWhole(s, steps);
    assert FramesWhole(After(s, steps), c);
  }

  /** A frame that is taken is the newest handed over at that moment. */
  lemma TakesTheNewest(s: System, c: nat, now: Moment)
    requires AllWhole(s) && Enabled(s, Take(c, true, now)) && Recent(s.cameras[c].newest.arrived, now)
    ensures var t := Do(s, Take(c, true, now));
            var handed := s.cameras[c].handed;
            AllWhole(t) && |handed| > 0 && t.cameras[c].front.sequence == |handed| && Held(t, c) == handed[|handed| - 1]
  {
    TakeKeepsWhole(s, c, true, now);
    assert FramesWhole(s, c);
    assert FramesWhole(Do(s, Take(c, true, now)), c);
  }

  /** What the draw loop holds is changed by nobody else: no step but its own
      take writes the bytes it draws from. */
  lemma OnlyATakeChangesWhatIsHeld(s: System, step: Step, c: nat)
    requires Formed(s) && Enabled(s, step) && c < |s.cameras|
    requires !(step.Take? && step.camera == c)
    ensures Formed(Do(s, step)) && |Do(s, step).cameras| == |s.cameras| && Held(Do(s, step), c) == Held(s, c)
    ensures Do(s, step).cameras[c].front.sequence == s.cameras[c].front.sequence
  {
    DoKeepsFormed(s, step);
    if !AtTheSlots(step) {
      DoLeavesSlots(s, step, c);
    }
  }

  lemma HandedStaysOrGrows(s: System, step: Step, c: nat)
    requires Formed(s) && Enabled(s, step) && c < |s.cameras|
    ensures |Do(s, step).cameras| == |s.cameras| && s.cameras[c].handed <= Do(s, step).cameras[c].handed
  {
    if !AtTheSlots(step) {
      DoLeavesSlots(s, step, c);
    }
  }

  lemma {:induction false} HandedOnlyGrows(s: System, steps: seq<Step>, c: nat)
    requires Possible(s, steps) && c < |s.cameras|
    ensures |After(s, steps).cameras| == |s.cameras|
    ensures s.cameras[c].handed <= After(s, steps).cameras[c].handed
    decreases |steps|
  {
    if |steps| > 0 {
      HandedStaysOrGrows(s, steps[0], c);
      HandedOnlyGrows(Do(s, steps[0]), steps[1..], c);
    }
  }

  /** A count names one frame for good: whenever the draw loop holds the same
      count again, it holds the same picture. */
  lemma CountNamesThePicture(s: System, steps: seq<Step>, c: nat)
    requires AllWhole(s) && Possible(s, steps) && c < |s.cameras|
    ensures AllWhole(After(s, steps)) && |After(s, steps).cameras| == |s.cameras|
    ensures var t := After(s, steps);
            s.cameras[c].front.sequence > 0 && t.cameras[c].front.sequence == s.cameras[c].front.sequence ==>
              Held(t, c) == Held(s, c)
  {
    RunKeepsWhole(s, steps);
    HandedOnlyGrows(s, steps, c);
    assert FramesWhole(s, c) && FramesWhole(After(s, steps), c);
  }
}

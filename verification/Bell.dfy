/** What wakes the draw loop: over every interleaving of the hand-over, it never goes
    to sleep on a frame it has not looked at. */
module Bell {
  import opened Frames
  import opened Handover
  import opened HandoverRuns

  predicate Unseen(s: System, c: nat)
    requires c < |s.cameras|
  {
    |s.cameras[c].handed| > s.cameras[c].seen
  }

  /** A receiver of the camera is about to ring. */
  predicate IsRinging(s: System, r: nat, c: nat) {
    r in s.receivers && s.receivers[r].camera == c && s.receivers[r].pc.Ringing?
  }

  predicate IsNotifying(s: System, r: nat) { r in s.receivers && s.receivers[r].pc.Notifying? }

  predicate LookedAt(s: System, c: nat) {
    && s.looked && c < |s.cameras| && s.cameras[c].shown
    && (s.loop.Deciding? || s.loop.Sleeping? || s.loop.Napping? || (s.loop.Looking? && c < s.loop.next))
  }

  ghost predicate Announced(s: System, c: nat) { s.landed || exists r :: IsRinging(s, r, c) }

  ghost predicate BellComing(s: System) { s.tellers > 0 || exists r :: IsNotifying(s, r) }

  ghost predicate NothingMissed(s: System) {
    && (forall c | 0 <= c < |s.cameras| :: LookedAt(s, c) && Unseen(s, c) ==> Announced(s, c))
    && (s.loop.Sleeping? && (s.landed || s.mail) ==> BellComing(s))
  }

  lemma DoKeepsAnnounced(s: System, step: Step, c: nat)
    requires Formed(s) && Enabled(s, step) && c < |s.cameras|
    requires LookedAt(s, c) && Unseen(s, c) ==> Announced(s, c)
    ensures var t := Do(s, step);
            |t.cameras| == |s.cameras| && (LookedAt(t, c) && Unseen(t, c) ==> Announced(t, c))
  {
    var t := Do(s, step);
    if LookedAt(t, c) && Unseen(t, c) {
      if step.Swap? && s.receivers[step.r].camera == c {
        assert IsRinging(t, step.r, c);
      } else if !t.landed {
        assert LookedAt(s, c) && Unseen(s, c);
        var r :| IsRinging(s, r, c);
        assert IsRinging(t, r, c);
      }
    }
  }

  lemma DoKeepsBellComing(s: System, step: Step)
    requires Formed(s) && Enabled(s, step)
    requires s.loop.Sleeping? && (s.landed || s.mail) ==> BellComing(s)
    ensures var t := Do(s, step); t.loop.Sleeping? && (t.landed || t.mail) ==> BellComing(t)
  {
    var t := Do(s, step);
    if t.loop.Sleeping? && (t.landed || t.mail) {
      if step.Ring? {
        assert IsNotifying(t, step.r);
      } else if t.tellers == 0 {
        var r :| IsNotifying(s, r);
        assert IsNotifying(t, r);
      }
    }
  }

  lemma DoMissesNothing(s: System, step: Step)
    requires Formed(s) && Enabled(s, step) && NothingMissed(s)
    ensures Formed(Do(s, step)) && NothingMissed(Do(s, step))
  {
    DoKeepsFormed(s, step);
    DoKeepsBellComing(s, step);
    var t := Do(s, step);
    forall c | 0 <= c < |t.cameras|
      ensures LookedAt(t, c) && Unseen(t, c) ==> Announced(t, c)
    {
      CamerasStay(s, step);
      DoKeepsAnnounced(s, step, c);
    }
  }

  lemma CamerasStay(s: System, step: Step)
    requires Formed(s) && Enabled(s, step)
    ensures |Do(s, step).cameras| == |s.cameras|
  {
  }

  lemma {:induction false} RunMissesNothing(s: System, steps: seq<Step>)
    requires Possible(s, steps) && Formed(s) && NothingMissed(s)
    ensures Formed(After(s, steps)) && NothingMissed(After(s, steps))
    decreases |steps|
  {
    if |steps| > 0 {
      DoMissesNothing(s, steps[0]);
      RunMissesNothing(Do(s, steps[0]), steps[1..]);
    }
  }

  /** While connected, the draw loop never sleeps on a frame of a camera that its
      scene shows, not looked at, without being woken: the frame's receiver is about to ring, or it has
      and the bell is still to come; or it naps for a step only, and the flag
      that it reads after it is set. */
  lemma NeverSleepsOnAnUnseenFrame(s: System, steps: seq<Step>, c: nat)
    requires Initial(s) && Possible(s, steps)
    requires var t := After(s, steps);
             && c < |t.cameras| && t.looked && t.cameras[c].shown && Unseen(t, c)
             && (t.loop.Sleeping? || t.loop.Napping?)
    ensures var t := After(s, steps);
            || (exists r :: IsRinging(t, r, c))
            || (t.landed && (t.loop.Napping? || BellComing(t)))
  {
    RunMissesNothing(s, steps);
    assert LookedAt(After(s, steps), c);
  }
}

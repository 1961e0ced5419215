/** The hand-over between any number of receivers and the one draw loop, as
    interleaved atomic steps: a receiver copies a frame into its spare buffer
    bit by bit, swaps it for the newest one under the camera's lock, and rings
    the inbox; the draw loop looks, takes by a swap, looks again and waits. */
module Handover {
  import opened Common
  import opened Frames

  type BufferId = nat

  datatype ReceiverPc = Idle | Copying(frame: Picture, done: nat) | Ringing | Notifying

  datatype Receiver = Receiver(camera: nat, spare: BufferId, pc: ReceiverPc)

  datatype Owner = OfNewest(camera: nat) | OfFront(camera: nat) | OfReceiver(receiver: nat)

  /** `handed` is every frame handed over so far; `seen` how many there were
      when the draw loop last looked at the camera, and `shown` whether it did:
      it passes over a camera that the scene does not show. */
  datatype Camera = Camera(
    newest: Newest<BufferId>, front: Front<BufferId>, handed: seq<Picture>, seen: nat, shown: bool)

  /** Where the draw loop is: awake before its last look, at the last look of a
      camera, deciding under the inbox's lock, asleep on its bell, or napping:
      the last part of a timed wait is slept in steps that no bell ends. */
  datatype LoopPc = Waking | Looking(next: nat) | Deciding | Sleeping | Napping

  /** `mail`: an order or the end waits, and `tellers` have said so without
      ringing the bell yet. `looked`: the draw loop last woke connected, so it
      looked before it came to wait. `owners` only names each buffer's holder. */
  datatype System = System(
    buffers: map<BufferId, seq<Byte>>,
    owners: map<BufferId, Owner>,
    cameras: seq<Camera>,
    receivers: map<nat, Receiver>,
    landed: bool,
    mail: bool,
    tellers: nat,
    loop: LoopPc,
    looked: bool)

  datatype Step =
    | Spawn(r: nat, camera: nat, b: BufferId)
    | End(r: nat)
    | Begin(r: nat, frame: Picture)
    | Copy(r: nat, count: nat)
    | Swap(r: nat, at: Moment)
    | Ring(r: nat)
    | Notify(r: nat)
    | Tell
    | NotifyTold
    | Take(camera: nat, shown: bool, now: Moment)
    | GiveUp
    | LookLast
    | LookAt(shown: bool)
    | ComeToWait
    | Decide(timeUp: bool, naps: bool)
    | TimeOut

  predicate Enabled(s: System, step: Step) {
    match step
    case Spawn(r, camera, b) => r !in s.receivers && camera < |s.cameras| && b !in s.buffers
    case End(r) => r in s.receivers && s.receivers[r].pc.Idle?
    case Begin(r, frame) => r in s.receivers && s.receivers[r].pc.Idle?
    case Copy(r, count) =>
      r in s.receivers && s.receivers[r].pc.Copying?
      && s.receivers[r].pc.done + count <= |s.receivers[r].pc.frame.bytes|
    case Swap(r, _) =>
      r in s.receivers && s.receivers[r].pc.Copying?
      && s.receivers[r].pc.done == |s.receivers[r].pc.frame.bytes|
    case Ring(r) => r in s.receivers && s.receivers[r].pc.Ringing?
    case Notify(r) => r in s.receivers && s.receivers[r].pc.Notifying?
    case Tell => true
    case NotifyTold => s.tellers > 0
    case Take(camera, _, _) => s.loop.Waking? && camera < |s.cameras|
    case GiveUp => s.loop.Waking?
    case LookLast => s.loop.Waking?
    case LookAt(_) => s.loop.Looking? && s.loop.next < |s.cameras|
    case ComeToWait => s.loop.Looking? && s.loop.next == |s.cameras|
    case Decide(_, _) => s.loop.Deciding?
    case TimeOut => s.loop.Sleeping? || s.loop.Napping?
  }

  /** Every buffer and receiver is where the state says it is. */
  predicate Formed(s: System) {
    && s.owners.Keys == s.buffers.Keys
    && (forall c | 0 <= c < |s.cameras| ::
          && s.cameras[c].newest.buffer in s.owners && s.owners[s.cameras[c].newest.buffer] == OfNewest(c)
          && s.cameras[c].front.buffer in s.owners && s.owners[s.cameras[c].front.buffer] == OfFront(c))
    && (forall r | r in s.receivers ::
          && s.receivers[r].camera < |s.cameras|
          && s.receivers[r].spare in s.owners && s.owners[s.receivers[r].spare] == OfReceiver(r))
    && (s.loop.Looking? ==> s.loop.next <= |s.cameras|)
  }

  function Woken(loop: LoopPc): LoopPc { if loop.Sleeping? then Deciding else loop }

  function Do(s: System, step: Step): System
    requires Formed(s) && Enabled(s, step)
  {
    match step
    case Spawn(r, camera, b) =>
      s.(buffers := s.buffers[b := []], owners := s.owners[b := OfReceiver(r)],
         receivers := s.receivers[r := Receiver(camera, b, Idle)])
    case End(r) =>
      var b := s.receivers[r].spare;
      s.(buffers := s.buffers - {b}, owners := s.owners - {b}, receivers := s.receivers - {r})
    case Begin(r, frame) =>
      var receiver := s.receivers[r];
      s.(buffers := s.buffers[receiver.spare := []],
         receivers := s.receivers[r := receiver.(pc := Copying(frame, 0))])
    case Copy(r, count) =>
      var receiver := s.receivers[r];
      var pc := receiver.pc;
      s.(buffers := s.buffers[receiver.spare := s.buffers[receiver.spare] + pc.frame.bytes[pc.done..pc.done + count]],
         receivers := s.receivers[r := receiver.(pc := pc.(done := pc.done + count))])
    case Swap(r, at) => Swapped(s, r, at)
    case Ring(r) => s.(landed := true, receivers := s.receivers[r := s.receivers[r].(pc := Notifying)])
    case Notify(r) => s.(loop := Woken(s.loop), receivers := s.receivers[r := s.receivers[r].(pc := Idle)])
    case Tell => s.(mail := true, tellers := s.tellers + 1)
    case NotifyTold => s.(tellers := s.tellers - 1, loop := Woken(s.loop))
    case Take(camera, shown, now) => TakenFrom(s, camera, shown, now)
    case GiveUp => s.(loop := Deciding, looked := false)
    case LookLast => s.(loop := Looking(0), looked := true)
    case LookAt(shown) =>
      var c := s.loop.next;
      var camera := s.cameras[c];
      s.(loop := Looking(c + 1),
         cameras := s.cameras[c := camera.(seen := if shown then |camera.handed| else camera.seen, shown := shown)])
    case ComeToWait => s.(loop := Deciding)
    case Decide(timeUp, naps) =>
      if s.landed || s.mail || timeUp then s.(landed := false, mail := false, loop := Waking)
      else s.(loop := if naps then Napping else Sleeping)
    case TimeOut => s.(loop := Deciding)
  }

  /** The hand-over, under the camera's lock (`Giver.HandOver`). */
  function Swapped(s: System, r: nat, at: Moment): System
    requires Formed(s) && Enabled(s, Swap(r, at))
  {
    var receiver := s.receivers[r];
    var frame := receiver.pc.frame;
    var camera := s.cameras[receiver.camera];
    var handed := HandedOver(camera.newest, receiver.spare, frame.width, frame.height, frame.stride, at);
    s.(cameras := s.cameras[receiver.camera := camera.(newest := handed, handed := camera.handed + [frame])],
       receivers := s.receivers[r := receiver.(spare := camera.newest.buffer, pc := Ringing)],
       owners := s.owners[receiver.spare := OfNewest(receiver.camera)][camera.newest.buffer := OfReceiver(r)])
  }

  /** The draw loop's take, under the camera's lock (`TakeOne`). */
  function TakenFrom(s: System, c: nat, shown: bool, now: Moment): System
    requires Formed(s) && c < |s.cameras|
  {
    var camera := s.cameras[c];
    var taken := TakenBy(camera.newest, camera.front, shown, now);
    s.(cameras := s.cameras[c := camera.(newest := taken.newest, front := taken.front)],
       owners := s.owners[taken.newest.buffer := OfNewest(c)][taken.front.buffer := OfFront(c)])
  }

  // ----- The frames

  predicate IsShape<B>(n: Newest<B>, p: Picture) { n.width == p.width && n.height == p.height && n.stride == p.stride }

  /** The newest slot holds the last frame handed over, unless the draw loop
      has taken it; the draw loop holds one frame that was handed over, whole. */
  predicate FramesWhole(s: System, c: nat)
    requires Formed(s) && c < |s.cameras|
  {
    var camera := s.cameras[c];
    var n, f, handed := camera.newest, camera.front, camera.handed;
    && n.sequence == |handed|
    && f.sequence <= |handed|
    && (n.arrived.Some? <==> |handed| > 0)
    && (|handed| > 0 ==> IsShape(n, handed[|handed| - 1]))
    && (f.sequence < |handed| ==> s.buffers[n.buffer] == handed[|handed| - 1].bytes)
    && (f.sequence > 0 ==>
          && s.buffers[f.buffer] == handed[f.sequence - 1].bytes
          && f.width == handed[f.sequence - 1].width
          && f.height == handed[f.sequence - 1].height
          && f.stride == handed[f.sequence - 1].stride)
  }

  predicate CopiesWhole(s: System)
    requires Formed(s)
  {
    forall r | r in s.receivers && s.receivers[r].pc.Copying? ::
      var pc := s.receivers[r].pc;
      pc.done <= |pc.frame.bytes| && s.buffers[s.receivers[r].spare] == pc.frame.bytes[..pc.done]
  }

  predicate AllWhole(s: System) {
    Formed(s) && CopiesWhole(s) && forall c | 0 <= c < |s.cameras| :: FramesWhole(s, c)
  }

  /** A buffer has one holder, so two holders have two buffers. */
  lemma HoldersApart(s: System, c: nat, d: nat, r: nat)
    requires Formed(s) && c < |s.cameras| && d < |s.cameras| && r in s.receivers
    ensures s.receivers[r].spare != s.cameras[c].newest.buffer && s.receivers[r].spare != s.cameras[c].front.buffer
    ensures s.cameras[c].newest.buffer != s.cameras[d].front.buffer
    ensures c != d ==>
              && s.cameras[c].newest.buffer != s.cameras[d].newest.buffer
              && s.cameras[c].front.buffer != s.cameras[d].front.buffer
  {
  }

  lemma SwapKeepsFormed(s: System, r: nat, at: Moment)
    requires Formed(s) && Enabled(s, Swap(r, at))
    ensures Formed(Do(s, Swap(r, at)))
  {
    var t := Swapped(s, r, at);
    var d := s.receivers[r].camera;
    forall c | 0 <= c < |s.cameras|
      ensures && t.cameras[c].newest.buffer in t.owners && t.owners[t.cameras[c].newest.buffer] == OfNewest(c)
              && t.cameras[c].front.buffer in t.owners && t.owners[t.cameras[c].front.buffer] == OfFront(c)
    {
      HoldersApart(s, c, d, r);
      HoldersApart(s, d, c, r);
    }
    forall q | q in s.receivers
      ensures && t.receivers[q].camera < |t.cameras|
              && t.receivers[q].spare in t.owners && t.owners[t.receivers[q].spare] == OfReceiver(q)
    {
      HoldersApart(s, d, d, q);
    }
  }

  lemma TakeKeepsFormed(s: System, d: nat, shown: bool, now: Moment)
    requires Formed(s) && Enabled(s, Take(d, shown, now))
    ensures Formed(Do(s, Take(d, shown, now)))
  {
    var t := TakenFrom(s, d, shown, now);
    forall c | 0 <= c < |s.cameras|
      ensures && t.cameras[c].newest.buffer in t.owners && t.owners[t.cameras[c].newest.buffer] == OfNewest(c)
              && t.cameras[c].front.buffer in t.owners && t.owners[t.cameras[c].front.buffer] == OfFront(c)
    {
    }
    forall q | q in s.receivers
      ensures && t.receivers[q].camera < |t.cameras|
              && t.receivers[q].spare in t.owners && t.owners[t.receivers[q].spare] == OfReceiver(q)
    {
      HoldersApart(s, d, d, q);
    }
  }

  predicate ChangesReceivers(step: Step) { step.Spawn? || step.End? || step.Begin? || step.Copy? }

  lemma ReceiversKeepFormed(s: System, step: Step)
    requires Formed(s) && Enabled(s, step) && ChangesReceivers(step)
    ensures Formed(Do(s, step))
  {
  }

  lemma LoopKeepsFormed(s: System, step: Step)
    requires Formed(s) && Enabled(s, step) && !AtTheSlots(step) && !ChangesReceivers(step)
    ensures Formed(Do(s, step))
  {
  }

  lemma DoKeepsFormed(s: System, step: Step)
    requires Formed(s) && Enabled(s, step)
    ensures Formed(Do(s, step))
  {
    if step.Swap? {
      SwapKeepsFormed(s, step.r, step.at);
    } else if step.Take? {
      TakeKeepsFormed(s, step.camera, step.shown, step.now);
    } else if ChangesReceivers(step) {
      ReceiversKeepFormed(s, step);
    } else {
      LoopKeepsFormed(s, step);
    }
  }

  lemma SwapKeepsWhole(s: System, r: nat, at: Moment)
    requires AllWhole(s) && Enabled(s, Swap(r, at))
    ensures AllWhole(Do(s, Swap(r, at)))
  {
    SwapKeepsFormed(s, r, at);
    var t := Swapped(s, r, at);
    var d := s.receivers[r].camera;
    assert s.receivers[r].pc.frame.bytes[..s.receivers[r].pc.done] == s.receivers[r].pc.frame.bytes;
    forall c | 0 <= c < |s.cameras|
      ensures FramesWhole(t, c)
    {
      assert FramesWhole(s, c);
    }
  }

  /** A step that leaves every camera's slots and their buffers' bytes alone. */
  lemma ElsewhereKeepsWhole(s: System, t: System, c: nat)
    requires Formed(s) && Formed(t) && c < |s.cameras| == |t.cameras| && FramesWhole(s, c)
    requires t.cameras[c] == s.cameras[c].(seen := t.cameras[c].seen, shown := t.cameras[c].shown)
    requires t.buffers[t.cameras[c].newest.buffer] == s.buffers[s.cameras[c].newest.buffer]
    requires t.buffers[t.cameras[c].front.buffer] == s.buffers[s.cameras[c].front.buffer]
    ensures FramesWhole(t, c)
  {
  }

  lemma TakeLeavesItsCameraWhole(s: System, d: nat, shown: bool, now: Moment)
    requires Formed(s) && Enabled(s, Take(d, shown, now)) && FramesWhole(s, d)
    requires Formed(TakenFrom(s, d, shown, now))
    ensures FramesWhole(TakenFrom(s, d, shown, now), d)
  {
  }

  lemma TakeKeepsWhole(s: System, d: nat, shown: bool, now: Moment)
    requires AllWhole(s) && Enabled(s, Take(d, shown, now))
    ensures AllWhole(Do(s, Take(d, shown, now)))
  {
    TakeKeepsFormed(s, d, shown, now);
    var t := TakenFrom(s, d, shown, now);
    assert t.receivers == s.receivers && t.buffers == s.buffers;
    forall c | 0 <= c < |s.cameras|
      ensures FramesWhole(t, c)
    {
      assert FramesWhole(s, c);
      if c == d {
        TakeLeavesItsCameraWhole(s, d, shown, now);
      } else {
        ElsewhereKeepsWhole(s, t, c);
      }
    }
  }

  predicate AtTheSlots(step: Step) { step.Swap? || step.Take? }

  lemma DoLeavesSlots(s: System, step: Step, c: nat)
    requires Formed(s) && Enabled(s, step) && c < |s.cameras| && !AtTheSlots(step)
    ensures Formed(Do(s, step)) && |Do(s, step).cameras| == |s.cameras|
    ensures var t := Do(s, step);
            && t.cameras[c] == s.cameras[c].(seen := t.cameras[c].seen, shown := t.cameras[c].shown)
            && t.buffers[t.cameras[c].newest.buffer] == s.buffers[s.cameras[c].newest.buffer]
            && t.buffers[t.cameras[c].front.buffer] == s.buffers[s.cameras[c].front.buffer]
  {
    DoKeepsFormed(s, step);
  }

  predicate CopyWhole(s: System, r: nat)
    requires Formed(s)
  {
    r in s.receivers && s.receivers[r].pc.Copying? ==>
      var pc := s.receivers[r].pc;
      pc.done <= |pc.frame.bytes| && s.buffers[s.receivers[r].spare] == pc.frame.bytes[..pc.done]
  }

  lemma CopyStays(s: System, t: System, r: nat)
    requires Formed(s) && Formed(t) && CopyWhole(s, r)
    requires r in t.receivers ==> r in s.receivers && t.receivers[r] == s.receivers[r]
    requires r in t.receivers ==> t.buffers[t.receivers[r].spare] == s.buffers[t.receivers[r].spare]
    ensures CopyWhole(t, r)
  {
  }

  lemma CopyGrows(s: System, r: nat, count: nat)
    requires Formed(s) && Enabled(s, Copy(r, count)) && Formed(Do(s, Copy(r, count))) && CopyWhole(s, r)
    ensures CopyWhole(Do(s, Copy(r, count)), r)
  {
    var pc := s.receivers[r].pc;
    assert pc.frame.bytes[..pc.done] + pc.frame.bytes[pc.done..pc.done + count] == pc.frame.bytes[..pc.done + count];
  }

  predicate AtReceiver(step: Step, r: nat) {
    || (step.Spawn? && step.r == r) || (step.End? && step.r == r)
    || (step.Begin? && step.r == r) || (step.Copy? && step.r == r)
    || (step.Ring? && step.r == r) || (step.Notify? && step.r == r)
  }

  lemma DoLeavesReceiver(s: System, step: Step, r: nat)
    requires Formed(s) && Enabled(s, step) && !AtTheSlots(step) && !AtReceiver(step, r)
    ensures var t := Do(s, step);
            && (r in t.receivers ==> r in s.receivers && t.receivers[r] == s.receivers[r])
            && (r in t.receivers ==> && t.receivers[r].spare in t.buffers
                                     && t.buffers[t.receivers[r].spare] == s.buffers[t.receivers[r].spare])
  {
  }

  lemma DoKeepsCopy(s: System, step: Step, r: nat)
    requires Formed(s) && Enabled(s, step) && Formed(Do(s, step)) && CopyWhole(s, r) && !AtTheSlots(step)
    ensures CopyWhole(Do(s, step), r)
  {
    if !AtReceiver(step, r) {
      DoLeavesReceiver(s, step, r);
      CopyStays(s, Do(s, step), r);
    } else if step.Copy? {
      CopyGrows(s, r, step.count);
    }
  }

  lemma DoKeepsCopies(s: System, step: Step)
    requires Formed(s) && Enabled(s, step) && CopiesWhole(s) && !AtTheSlots(step)
    ensures Formed(Do(s, step)) && CopiesWhole(Do(s, step))
  {
    DoKeepsFormed(s, step);
    var t := Do(s, step);
    forall r | r in t.receivers && t.receivers[r].pc.Copying?
      ensures CopyWhole(t, r)
    {
      assert CopyWhole(s, r);
      DoKeepsCopy(s, step, r);
    }
  }

  lemma OtherKeepsWhole(s: System, step: Step)
    requires AllWhole(s) && Enabled(s, step) && !AtTheSlots(step)
    ensures AllWhole(Do(s, step))
  {
    DoKeepsCopies(s, step);
    var t := Do(s, step);
    forall c | 0 <= c < |t.cameras|
      ensures FramesWhole(t, c)
    {
      DoLeavesSlots(s, step, 0);
      assert FramesWhole(s, c);
      DoLeavesSlots(s, step, c);
      ElsewhereKeepsWhole(s, t, c);
    }
  }

  lemma DoKeepsWhole(s: System, step: Step)
    requires AllWhole(s) && Enabled(s, step)
    ensures AllWhole(Do(s, step))
  {
    if step.Swap? {
      SwapKeepsWhole(s, step.r, step.at);
    } else if step.Take? {
      TakeKeepsWhole(s, step.camera, step.shown, step.now);
    } else {
      OtherKeepsWhole(s, step);
    }
  }
}

/** Every interleaving of the keeping thread, the receivers' own threads and the
    helper's end, one atomic step at a time: a flag read or stored, a section
    under a camera's lock, a library call. */
module ReceiverRuns {
  import opened Common
  import opened Receivers

  /** Where a receiver's thread is. `Handing`: it has seen itself not told to
      stop, and is about to hand a frame over. */
  datatype Stage = Opening | Opened | Taking | Handing | Leaving | Cleared | Ended

  datatype Thread = Thread(camera: nat, stage: Stage, frames: nat)

  /** The end of the helper: the flags read as set by the check under way, the
      search's first, or how it ended. */
  datatype Phase = Keeping | Checking(read: nat) | Over(complains: bool)

  /** `registered` is each camera's receiver as the cameras know it, `from` the
      receiver whose frame is each camera's newest. */
  datatype System = System(
    main: Main,
    threads: map<Id, Thread>,
    registered: seq<Option<Id>>,
    from: seq<Option<Id>>,
    searchEnded: bool,
    phase: Phase)

  datatype Step =
    | Reap(k: nat)
    | Keep(move: Move)
    | Open(id: Id, connects: bool)
    | Register(id: Id)
    | Receive(id: Id)
    | HandOver(id: Id)
    | SeeStop(id: Id)
    | Clear(id: Id)
    | End(id: Id)
    | EndSearch
    | StopAll
    | Check(late: bool)

  predicate At(s: System, id: Id, stage: Stage) { id in s.threads && s.threads[id].stage == stage }

  predicate Shaped(s: System) {
    && Fits(s.main) && |s.registered| == |s.from| == CAMERAS
    && forall id | id in s.threads :: s.threads[id].camera < CAMERAS
  }

  predicate HasEnded(s: System, id: Id) { At(s, id, Ended) }

  predicate CanKeep(s: System, move: Move) {
    && s.phase.Keeping? && CanMove(s.main, move)
    && (move.Drop? ==> HasEnded(s, s.main.receivers[move.c].value.id))
  }

  predicate Enabled(s: System, step: Step)
    requires Shaped(s)
  {
    match step
    case Reap(k) => s.phase.Keeping? && k < |s.main.ending| && HasEnded(s, s.main.ending[k])
    case Keep(move) => CanKeep(s, move)
    case Open(id, _) => At(s, id, Opening)
    case Register(id) => At(s, id, Opened)
    case Receive(id) => At(s, id, Taking) && id !in s.main.told
    case HandOver(id) => At(s, id, Handing)
    case SeeStop(id) => At(s, id, Taking) && id in s.main.told
    case Clear(id) => At(s, id, Leaving)
    case End(id) => At(s, id, Cleared)
    case EndSearch => true
    case StopAll => s.phase.Keeping? && forall c | 0 <= c < CAMERAS :: s.main.receivers[c].None?
    case Check(_) => s.phase.Checking?
  }

  function Gone(s: System, id: Id, stage: Stage): System
    requires id in s.threads
  {
    s.(threads := s.threads[id := s.threads[id].(stage := stage)])
  }

  /** Not told to stop while it connected, nor overtaken by a newer receiver. */
  predicate Registers(s: System, id: Id)
    requires Shaped(s) && id in s.threads
  {
    var holder := s.registered[s.threads[id].camera];
    id !in s.main.told && (holder.Some? ==> holder.value < id)
  }

  /** Whether the flag that a check reads next is set. */
  predicate FlagSet(s: System, read: nat) {
    if read == 0 then s.searchEnded else read <= |s.main.ending| && HasEnded(s, s.main.ending[read - 1])
  }

  /** A check goes on while it reads flags that are set. A flag that is not set
      ends it: it starts over, or complains when it is late. */
  function Checked(s: System, read: nat, late: bool): Phase {
    if read == |s.main.ending| + 1 then Over(false)
    else if FlagSet(s, read) then Checking(read + 1)
    else if late then Over(true)
    else Checking(0)
  }

  function KeepMoved(s: System, move: Move): System
    requires Shaped(s) && CanKeep(s, move)
  {
    var main := Moved(s.main, move);
    if move.Connect? && move.starts
    then s.(main := main, threads := s.threads[main.made := Thread(move.c, Opening, 0)])
    else s.(main := main)
  }

  function Next(s: System, step: Step): System
    requires Shaped(s) && Enabled(s, step)
  {
    match step
    case Reap(k) => s.(main := s.main.(ending := s.main.ending[..k] + s.main.ending[k + 1..]))
    case Keep(move) => KeepMoved(s, move)
    case Open(id, connects) => Gone(s, id, if connects then Opened else Leaving)
    case Register(id) =>
      if Registers(s, id)
      then Gone(s, id, Taking).(registered := s.registered[s.threads[id].camera := Some(id)])
      else Gone(s, id, Leaving)
    case Receive(id) => Gone(s, id, Handing)
    case HandOver(id) =>
      var t := s.threads[id];
      s.(threads := s.threads[id := Thread(t.camera, Taking, t.frames + 1)], from := s.from[t.camera := Some(id)])
    case SeeStop(id) => Gone(s, id, Leaving)
    case Clear(id) =>
      var c := s.threads[id].camera;
      Gone(s, id, Cleared).(registered := if s.registered[c] == Some(id) then s.registered[c := None] else s.registered)
    case End(id) => Gone(s, id, Ended)
    case EndSearch => s.(searchEnded := true)
    case StopAll => s.(phase := Checking(0))
    case Check(late) => s.(phase := Checked(s, s.phase.read, late))
  }

  // ----- What every step keeps

  predicate IsReceiver(s: System, id: Id)
    requires Shaped(s) && id in s.threads
  {
    var r := s.main.receivers[s.threads[id].camera];
    r.Some? && r.value.id == id
  }

  /** A receiver not told to stop is its camera's, or has ended; one told to
      stop is watched until it ends; and nobody newer runs beside it. */
  predicate ThreadSound(s: System, id: Id)
    requires Shaped(s) && id in s.threads
  {
    var t := s.threads[id];
    var newest := s.main.receivers[t.camera];
    && id <= s.main.made
    && (t.stage.Ended? || IsReceiver(s, id) || id in s.main.ending)
    && (id !in s.main.told && !t.stage.Ended? ==> IsReceiver(s, id))
    && (newest.Some? ==> id <= newest.value.id)
    && ((t.stage.Taking? || t.stage.Handing?) && id !in s.main.told ==> s.registered[t.camera] == Some(id))
  }

  predicate ReceiverSound(s: System, c: nat)
    requires Shaped(s) && c < CAMERAS
  {
    var r := s.main.receivers[c];
    r.Some? ==> r.value.id in s.threads && s.threads[r.value.id].camera == c && r.value.id !in s.main.told
  }

  /** A camera's receiver is there and not told to stop; the one registered for
      it is there, and has not yet come past clearing its registration. */
  predicate CameraSound(s: System, c: nat)
    requires Shaped(s) && c < CAMERAS
  {
    var holder := s.registered[c];
    && ReceiverSound(s, c)
    && (holder.Some? ==>
          && holder.value in s.threads && s.threads[holder.value].camera == c
          && var stage := s.threads[holder.value].stage; stage.Taking? || stage.Handing? || stage.Leaving?)
  }

  predicate PhaseSound(s: System)
    requires Shaped(s)
  {
    && (!s.phase.Keeping? ==> forall c | 0 <= c < CAMERAS :: s.main.receivers[c].None?)
    && (s.phase.Checking? ==>
          && s.phase.read <= |s.main.ending| + 1
          && forall k | 0 <= k < s.phase.read :: FlagSet(s, k))
    && (s.phase == Over(false) ==> forall k | 0 <= k <= |s.main.ending| :: FlagSet(s, k))
  }

  predicate Sound(s: System) {
    && Shaped(s)
    && (forall id | id in s.threads :: ThreadSound(s, id))
    && (forall c | 0 <= c < CAMERAS :: CameraSound(s, c))
    && (forall id | id in s.main.ending :: id in s.threads)
    && (forall id | id in s.main.told :: id <= s.main.made)
    && PhaseSound(s)
  }

  lemma KeepLeavesThreadSound(s: System, move: Move, id: Id)
    requires Sound(s) && CanKeep(s, move) && id in KeepMoved(s, move).threads
    ensures Shaped(KeepMoved(s, move)) && ThreadSound(KeepMoved(s, move), id)
  {
    assert CameraSound(s, move.c);
    if id in s.threads {
      assert ThreadSound(s, id);
    }
  }

  lemma KeepLeavesReceiverSound(s: System, move: Move, c: nat)
    requires Sound(s) && CanKeep(s, move) && c < CAMERAS
    ensures Shaped(KeepMoved(s, move)) && ReceiverSound(KeepMoved(s, move), c)
  {
    assert CameraSound(s, c) && CameraSound(s, move.c);
    var r := s.main.receivers[c];
    if r.Some? {
      assert ThreadSound(s, r.value.id);
    }
  }

  lemma KeepLeavesCameraSound(s: System, move: Move, c: nat)
    requires Sound(s) && CanKeep(s, move) && c < CAMERAS
    ensures Shaped(KeepMoved(s, move)) && CameraSound(KeepMoved(s, move), c)
  {
    KeepLeavesReceiverSound(s, move, c);
    assert CameraSound(s, c);
    var holder := s.registered[c];
    if holder.Some? {
      assert ThreadSound(s, holder.value);
    }
  }

  lemma KeepStaysSound(s: System, move: Move)
    requires Sound(s) && CanKeep(s, move)
    ensures Sound(KeepMoved(s, move))
  {
    var t := KeepMoved(s, move);
    assert CameraSound(s, move.c);
    if move.Stop? {
      assert ThreadSound(s, s.main.receivers[move.c].value.id);
    }
    forall id | id in t.threads
      ensures ThreadSound(t, id)
    {
      KeepLeavesThreadSound(s, move, id);
    }
    forall c | 0 <= c < CAMERAS
      ensures CameraSound(t, c)
    {
      KeepLeavesCameraSound(s, move, c);
    }
  }

  lemma ReapStaysSound(s: System, k: nat)
    requires Sound(s) && Enabled(s, Reap(k))
    ensures Sound(Next(s, Reap(k)))
  {
    var t := Next(s, Reap(k));
    forall id | id in t.threads
      ensures ThreadSound(t, id)
    {
      assert ThreadSound(s, id);
      if id in s.main.ending && id != s.main.ending[k] {
        var i :| 0 <= i < |s.main.ending| && s.main.ending[i] == id;
        assert t.main.ending[if i < k then i else i - 1] == id;
      }
    }
    forall c | 0 <= c < CAMERAS
      ensures CameraSound(t, c)
    {
      assert CameraSound(s, c);
    }
  }

  predicate IsThreads(step: Step) {
    step.Open? || step.Register? || step.Receive? || step.HandOver? || step.SeeStop? || step.Clear? || step.End?
  }

  predicate Registering(step: Step) { step.Register? || step.Clear? }

  /** A step that leaves the registrations alone. */
  lemma ThreadGoesOnSound(s: System, step: Step, id: Id)
    requires Sound(s) && Enabled(s, step) && IsThreads(step) && !Registering(step) && id in s.threads
    ensures Shaped(Next(s, step)) && id in Next(s, step).threads && ThreadSound(Next(s, step), id)
  {
    assert ThreadSound(s, id);
  }

  lemma RegisterStaysSound(s: System, own: Id, id: Id)
    requires Sound(s) && Enabled(s, Register(own)) && id in s.threads
    ensures var t := Next(s, Register(own)); Shaped(t) && id in t.threads && ThreadSound(t, id)
  {
    assert ThreadSound(s, id) && ThreadSound(s, own);
    assert CameraSound(s, s.threads[id].camera);
  }

  lemma ClearStaysSound(s: System, own: Id, id: Id)
    requires Sound(s) && Enabled(s, Clear(own)) && id in s.threads
    ensures var t := Next(s, Clear(own)); Shaped(t) && id in t.threads && ThreadSound(t, id)
  {
    assert ThreadSound(s, id);
  }

  lemma ThreadStaysSound(s: System, step: Step, id: Id)
    requires Sound(s) && Enabled(s, step) && IsThreads(step) && id in s.threads
    ensures Shaped(Next(s, step)) && id in Next(s, step).threads && ThreadSound(Next(s, step), id)
  {
    if step.Register? {
      RegisterStaysSound(s, step.id, id);
    } else if step.Clear? {
      ClearStaysSound(s, step.id, id);
    } else {
      ThreadGoesOnSound(s, step, id);
    }
  }

  lemma HolderGoesOnSound(s: System, step: Step, c: nat)
    requires Sound(s) && Enabled(s, step) && IsThreads(step) && !Registering(step) && c < CAMERAS
    ensures Shaped(Next(s, step)) && CameraSound(Next(s, step), c)
  {
    assert CameraSound(s, c);
  }

  lemma CameraStaysSound(s: System, step: Step, c: nat)
    requires Sound(s) && Enabled(s, step) && IsThreads(step) && c < CAMERAS
    ensures Shaped(Next(s, step)) && CameraSound(Next(s, step), c)
  {
    if Registering(step) {
      assert CameraSound(s, c) && ThreadSound(s, step.id);
    } else {
      HolderGoesOnSound(s, step, c);
    }
  }

  lemma ThreadsStaySound(s: System, step: Step)
    requires Sound(s) && Enabled(s, step) && IsThreads(step)
    ensures Sound(Next(s, step))
  {
    var t := Next(s, step);
    forall id | id in t.threads
      ensures ThreadSound(t, id)
    {
      ThreadStaysSound(s, step, id);
    }
    forall c | 0 <= c < CAMERAS
      ensures CameraSound(t, c)
    {
      CameraStaysSound(s, step, c);
    }
    FlagsStaySet(s, step);
  }

  lemma FlagsStaySet(s: System, step: Step)
    requires Sound(s) && Enabled(s, step) && IsThreads(step)
    ensures forall k: nat | FlagSet(s, k) :: FlagSet(Next(s, step), k)
    ensures Next(s, step).main == s.main && Next(s, step).phase == s.phase
  {
  }

  lemma EndingStaysSound(s: System, step: Step)
    requires Sound(s) && Enabled(s, step) && (step.EndSearch? || step.StopAll? || step.Check?)
    ensures Sound(Next(s, step))
  {
    var t := Next(s, step);
    assert t.main == s.main && t.threads == s.threads && t.registered == s.registered;
    forall id | id in t.threads
      ensures ThreadSound(t, id)
    {
      assert ThreadSound(s, id);
    }
    forall c | 0 <= c < CAMERAS
      ensures CameraSound(t, c)
    {
      assert CameraSound(s, c);
    }
    forall k: nat | FlagSet(s, k)
      ensures FlagSet(t, k)
    {
    }
  }

  lemma NextStaysSound(s: System, step: Step)
    requires Sound(s) && Enabled(s, step)
    ensures Sound(Next(s, step))
  {
    if step.Keep? {
      KeepStaysSound(s, step.move);
    } else if step.Reap? {
      ReapStaysSound(s, step.k);
    } else if IsThreads(step) {
      ThreadsStaySound(s, step);
    } else {
      EndingStaysSound(s, step);
    }
  }

  // ----- Whole runs

  predicate Possible(s: System, steps: seq<Step>)
    decreases |steps|
  {
    |steps| == 0 || (Shaped(s) && Enabled(s, steps[0]) && Possible(Next(s, steps[0]), steps[1..]))
  }

  function After(s: System, steps: seq<Step>): System
    requires Possible(s, steps)
    decreases |steps|
  {
    if |steps| == 0 then s else After(Next(s, steps[0]), steps[1..])
  }

  /** What `Vmix::start` leaves. */
  const STARTED := System(
    Main([None, None, None], [], {}, [None, None, None], [None, None, None], 0),
    map[], [None, None, None], [None, None, None], false, Keeping)

  lemma {:induction false} RunStaysSound(s: System, steps: seq<Step>)
    requires Sound(s) && Possible(s, steps)
    ensures Sound(After(s, steps))
    decreases |steps|
  {
    if |steps| > 0 {
      NextStaysSound(s, steps[0]);
      RunStaysSound(Next(s, steps[0]), steps[1..]);
    }
  }

  predicate RunsFreely(s: System, id: Id) { id in s.threads && id !in s.main.told && !HasEnded(s, id) }

  /** In every run, each camera has at most one receiver that runs and is not
      told to stop; if it takes frames, it is the registered one; and the
      registered one has not ended. */
  lemma AtMostOneRunsFreely(steps: seq<Step>, a: Id, b: Id, c: nat)
    requires Possible(STARTED, steps) && c < CAMERAS
    ensures var s := After(STARTED, steps);
            && Sound(s)
            && (RunsFreely(s, a) && RunsFreely(s, b) && s.threads[a].camera == c == s.threads[b].camera ==> a == b)
            && (RunsFreely(s, a) && (At(s, a, Taking) || At(s, a, Handing)) && s.threads[a].camera == c ==>
                  s.registered[c] == Some(a))
            && (s.registered[c].Some? ==>
                  s.registered[c].value in s.threads && !HasEnded(s, s.registered[c].value))
  {
    RunStaysSound(STARTED, steps);
    var s := After(STARTED, steps);
    assert CameraSound(s, c);
    if a in s.threads { assert ThreadSound(s, a); }
    if b in s.threads { assert ThreadSound(s, b); }
  }

  /** A receiver that connects takes the camera if and only if it has not been
      told to stop: by then it is the newest made for it. */
  lemma RegistersIffNotTold(s: System, id: Id)
    requires Sound(s) && At(s, id, Opened)
    ensures Registers(s, id) <==> id !in s.main.told
  {
    assert ThreadSound(s, id) && CameraSound(s, s.threads[id].camera);
    var holder := s.registered[s.threads[id].camera];
    if holder.Some? {
      assert ThreadSound(s, holder.value);
    }
  }

  /** A registration is replaced only by a newer receiver's, and cleared only by
      its own. */
  lemma RegistrationChanges(s: System, step: Step, c: nat)
    requires Shaped(s) && Enabled(s, step) && c < CAMERAS && Next(s, step).registered[c] != s.registered[c]
    ensures var was, now := s.registered[c], Next(s, step).registered[c];
            || (now.Some? && step == Register(now.value) && (was.Some? ==> was.value < now.value))
            || (now.None? && was.Some? && step == Clear(was.value))
  {
  }

  /** Whoever is registered for the camera is no older than this receiver. */
  predicate NoneOlder(s: System, c: nat, id: Id)
    requires Shaped(s) && c < CAMERAS
  {
    && id in s.threads && s.threads[id].camera == c
    && (s.registered[c].Some? ==> id <= s.registered[c].value)
  }

  lemma NoneOlderStays(s: System, step: Step, c: nat, id: Id)
    requires Sound(s) && Enabled(s, step) && c < CAMERAS && NoneOlder(s, c, id)
    ensures Shaped(Next(s, step)) && NoneOlder(Next(s, step), c, id)
  {
    NextStaysSound(s, step);
    assert ThreadSound(s, id);
    if step.Register? {
      assert ThreadSound(s, step.id);
    }
    if step.Keep? && id == Next(s, step).main.made {
      assert id <= s.main.made;
    }
  }

  /** An older receiver never comes back: along a run, a camera's registrations
      only get newer, also after a time with none. */
  lemma {:induction false} RegistrationsOnlyGetNewer(s: System, steps: seq<Step>, c: nat, id: Id)
    requires Sound(s) && Possible(s, steps) && c < CAMERAS && NoneOlder(s, c, id)
    ensures Shaped(After(s, steps)) && NoneOlder(After(s, steps), c, id)
    decreases |steps|
  {
    if |steps| > 0 {
      NoneOlderStays(s, steps[0], c, id);
      NextStaysSound(s, steps[0]);
      RegistrationsOnlyGetNewer(Next(s, steps[0]), steps[1..], c, id);
    }
  }

  // ----- Told to stop

  function StepsLeft(stage: Stage): nat {
    match stage
    case Opening | Handing => 4
    case Opened | Taking => 3
    case Leaving => 2
    case Cleared => 1
    case Ended => 0
  }

  function NextOf(stage: Stage, id: Id): Step
    requires !stage.Ended?
  {
    match stage
    case Opening => Open(id, true)
    case Opened => Register(id)
    case Taking => SeeStop(id)
    case Handing => HandOver(id)
    case Leaving => Clear(id)
    case Cleared => End(id)
  }

  predicate IsOwn(step: Step, id: Id) { IsThreads(step) && step.id == id }

  /** How many steps of a run are the receiver's own. */
  function OwnSteps(steps: seq<Step>, id: Id): nat {
    if |steps| == 0 then 0 else (if IsOwn(steps[0], id) then 1 else 0) + OwnSteps(steps[1..], id)
  }

  lemma AStepNearer(s: System, step: Step, id: Id)
    requires Sound(s) && Enabled(s, step) && id in s.threads && id in s.main.told
    ensures var t := Next(s, step);
            && id in t.threads && id in t.main.told
            && StepsLeft(t.threads[id].stage) + (if IsOwn(step, id) then 1 else 0) <= StepsLeft(s.threads[id].stage)
  {
    if step.Keep? {
      assert ThreadSound(s, id);
    }
  }

  /** Once told to stop, a receiver comes to its end by its own steps alone, no
      more than are left to it then: until it has ended there is always one it can
      take, and after that many, among whatever others, it has ended. */
  lemma {:induction false} ToldComesToItsEnd(s: System, steps: seq<Step>, id: Id)
    requires Sound(s) && Possible(s, steps) && id in s.threads && id in s.main.told
    ensures var t := After(s, steps);
            && Sound(t) && id in t.threads && id in t.main.told
            && OwnSteps(steps, id) + StepsLeft(t.threads[id].stage) <= StepsLeft(s.threads[id].stage)
            && (HasEnded(t, id) || Enabled(t, NextOf(t.threads[id].stage, id)))
            && (OwnSteps(steps, id) == StepsLeft(s.threads[id].stage) ==> HasEnded(t, id))
    decreases |steps|
  {
    if |steps| > 0 {
      AStepNearer(s, steps[0], id);
      NextStaysSound(s, steps[0]);
      ToldComesToItsEnd(Next(s, steps[0]), steps[1..], id);
    }
  }

  /** How many frames it may still hand over once told to stop. */
  function StillToHand(s: System, id: Id): nat
    requires id in s.threads
  {
    if s.threads[id].stage.Handing? then 1 else 0
  }

  lemma ToldHandsNoMore(s: System, step: Step, id: Id)
    requires Sound(s) && Enabled(s, step) && id in s.threads && id in s.main.told
    ensures var t := Next(s, step);
            && id in t.threads && id in t.main.told
            && t.threads[id].frames + StillToHand(t, id) == s.threads[id].frames + StillToHand(s, id)
  {
    if step.Keep? {
      assert ThreadSound(s, id);
    }
  }

  /** Once told to stop, a receiver hands over the one frame it was about to
      hand over, if any, and nothing after it. */
  lemma {:induction false} HandsAtMostOneMore(s: System, steps: seq<Step>, id: Id)
    requires Sound(s) && Possible(s, steps) && id in s.threads && id in s.main.told
    ensures var t := After(s, steps);
            && id in t.threads && id in t.main.told
            && t.threads[id].frames + StillToHand(t, id) == s.threads[id].frames + StillToHand(s, id)
    decreases |steps|
  {
    if |steps| > 0 {
      ToldHandsNoMore(s, steps[0], id);
      NextStaysSound(s, steps[0]);
      HandsAtMostOneMore(Next(s, steps[0]), steps[1..], id);
    }
  }

  /** Another step at the end of a run. */
  lemma {:induction false} AfterOneMore(s: System, steps: seq<Step>, step: Step)
    requires Possible(s, steps) && Shaped(After(s, steps)) && Enabled(After(s, steps), step)
    ensures Possible(s, steps + [step]) && After(s, steps + [step]) == Next(After(s, steps), step)
    decreases |steps|
  {
    var more := steps + [step];
    if |steps| == 0 {
      assert more[1..] == [];
    } else {
      AfterOneMore(Next(s, steps[0]), steps[1..], step);
      assert more[1..] == steps[1..] + [step];
    }
  }

  /** A receiver is made for a camera that has none, and connects. */
  lemma ComesToConnect(steps: seq<Step>, source: Announced) returns (more: seq<Step>)
    requires Possible(STARTED, steps)
    requires var s := After(STARTED, steps); Sound(s) && s.phase.Keeping? && s.main.receivers[0].None?
    ensures Possible(STARTED, more)
    ensures var s := After(STARTED, steps);
            After(STARTED, more) == s.(main := Connected(s.main, 0, source, true, 0),
                                       threads := s.threads[s.main.made + 1 := Thread(0, Opened, 0)])
  {
    var connect, open := Keep(Connect(0, source, true, 0)), Open(After(STARTED, steps).main.made + 1, true);
    AfterOneMore(STARTED, steps, connect);
    AfterOneMore(STARTED, steps + [connect], open);
    more := steps + [connect] + [open];
  }

  /** One that has connected is registered and takes a frame, not yet handed
      over. */
  lemma ComesToHand(steps: seq<Step>, id: Id) returns (more: seq<Step>)
    requires Possible(STARTED, steps)
    requires var s := After(STARTED, steps);
             Sound(s) && id in s.threads && s.threads[id] == Thread(0, Opened, 0) && id !in s.main.told
    ensures Possible(STARTED, more)
    ensures var s := After(STARTED, steps);
            After(STARTED, more) == s.(threads := s.threads[id := Thread(0, Handing, 0)],
                                       registered := s.registered[0 := Some(id)])
  {
    RegistersIffNotTold(After(STARTED, steps), id);
    AfterOneMore(STARTED, steps, Register(id));
    AfterOneMore(STARTED, steps + [Register(id)], Receive(id));
    more := steps + [Register(id)] + [Receive(id)];
  }

  /** The first receiver is told to stop while it is about to hand a frame over. */
  lemma FirstIsStopped(source: Announced) returns (steps: seq<Step>)
    ensures Possible(STARTED, steps)
    ensures var s := After(STARTED, steps);
            && Sound(s) && s.phase.Keeping? && s.main.made == 1 && s.main.receivers[0].None? && s.main.told == {1}
            && s.threads == map[1 := Thread(0, Handing, 0)]
  {
    steps := ComesToConnect([], source);
    RunStaysSound(STARTED, steps);
    steps := ComesToHand(steps, 1);
    RunStaysSound(STARTED, steps);
    var stop := Keep(Stop(0));
    AfterOneMore(STARTED, steps, stop);
    steps := steps + [stop];
    RunStaysSound(STARTED, steps);
  }

  /** And a second one takes the camera meanwhile. */
  lemma SecondTakesOver(source: Announced) returns (steps: seq<Step>)
    ensures Possible(STARTED, steps)
    ensures var s := After(STARTED, steps);
            && Sound(s) && s.main.told == {1} && s.registered[0] == Some(2)
            && s.threads == map[1 := Thread(0, Handing, 0), 2 := Thread(0, Handing, 0)]
  {
    steps := FirstIsStopped(source);
    steps := ComesToConnect(steps, source);
    RunStaysSound(STARTED, steps);
    steps := ComesToHand(steps, 2);
    RunStaysSound(STARTED, steps);
  }

  /** That one frame can come late: a camera's newest frame may be from a
      receiver told to stop, after the newer one, registered, handed one over. */
  lemma AStoppedReceiversFrameMayComeLast(source: Announced)
    ensures exists steps :: Possible(STARTED, steps) && var s := After(STARTED, steps);
              && Sound(s) && s.registered[0] == Some(2) && At(s, 2, Taking) && s.threads[2].frames == 1
              && s.from[0] == Some(1) && 1 in s.main.told
  {
    var steps := SecondTakesOver(source);
    AfterOneMore(STARTED, steps, HandOver(2));
    steps := steps + [HandOver(2)];
    AfterOneMore(STARTED, steps, HandOver(1));
    steps := steps + [HandOver(1)];
    RunStaysSound(STARTED, steps);
  }

  // ----- A keep is made of moves

  /** What a keep reads is so: a flag read as set is set. */
  predicate Truthful(s: System, ended: set<Id>, readings: seq<Reading>)
    requires Shaped(s)
  {
    && |readings| == CAMERAS
    && (forall id | id in ended :: HasEnded(s, id))
    && forall c | 0 <= c < CAMERAS && s.main.receivers[c].Some? && readings[c].ended ::
         HasEnded(s, s.main.receivers[c].value.id)
  }

  /** While the keeping thread alone steps, nothing that has ended runs again. */
  predicate OnlyKept(s: System, t: System) {
    Sound(t) && t.phase.Keeping? && forall id | id in s.threads && HasEnded(s, id) :: HasEnded(t, id)
  }

  lemma OneReap(s: System, k: nat, rest: seq<Step>)
    requires Sound(s) && s.phase.Keeping? && k < |s.main.ending| && HasEnded(s, s.main.ending[k])
    requires Possible(Next(s, Reap(k)), rest)
    ensures Possible(s, [Reap(k)] + rest) && After(s, [Reap(k)] + rest) == After(Next(s, Reap(k)), rest)
  {
    assert ([Reap(k)] + rest)[1..] == rest;
  }

  /** What is reaped of the first n, before the rest. */
  function ReapedFirst(ending: seq<Id>, n: nat, ended: set<Id>): seq<Id>
    requires n <= |ending|
  {
    Reaped(ending[..n], ended) + ending[n..]
  }

  lemma ReapedOneLess(ending: seq<Id>, n: nat, ended: set<Id>)
    requires 0 < n <= |ending|
    ensures ReapedFirst(ending, n, ended)
            == ReapedFirst(if ending[n - 1] in ended then ending[..n - 1] + ending[n..] else ending, n - 1, ended)
  {
    assert ending[..n][..n - 1] == ending[..n - 1];
    if ending[n - 1] in ended {
      var less := ending[..n - 1] + ending[n..];
      assert less[..n - 1] == ending[..n - 1] && less[n - 1..] == ending[n..];
    } else {
      assert ending[n - 1..] == [ending[n - 1]] + ending[n..];
    }
  }

  lemma {:induction false} ReapIsSteps(s: System, n: nat, ended: set<Id>) returns (steps: seq<Step>)
    requires Sound(s) && s.phase.Keeping? && n <= |s.main.ending| && forall id | id in ended :: HasEnded(s, id)
    ensures Possible(s, steps)
    ensures After(s, steps) == s.(main := s.main.(ending := ReapedFirst(s.main.ending, n, ended)))
    decreases n
  {
    steps := [];
    var ending := s.main.ending;
    if n == 0 {
      assert ReapedFirst(ending, 0, ended) == ending;
      return;
    }
    ReapedOneLess(ending, n, ended);
    if ending[n - 1] in ended {
      ReapStaysSound(s, n - 1);
      steps := ReapIsSteps(Next(s, Reap(n - 1)), n - 1, ended);
      OneReap(s, n - 1, steps);
      steps := [Reap(n - 1)] + steps;
    } else {
      steps := ReapIsSteps(s, n - 1, ended);
    }
  }

  lemma OneMove(s: System, steps: seq<Step>, move: Move)
    requires Possible(s, steps) && OnlyKept(s, After(s, steps)) && CanKeep(After(s, steps), move)
    ensures Possible(s, steps + [Keep(move)]) && OnlyKept(s, After(s, steps + [Keep(move)]))
    ensures After(s, steps + [Keep(move)]).main == Moved(After(s, steps).main, move)
  {
    AfterOneMore(s, steps, Keep(move));
    KeepStaysSound(After(s, steps), move);
    var t, u := After(s, steps), After(s, steps + [Keep(move)]);
    forall id | id in s.threads && HasEnded(s, id)
      ensures HasEnded(u, id)
    {
      assert HasEnded(t, id) && ThreadSound(t, id);
    }
  }

  lemma KeepCameraIsSteps(s: System, steps: seq<Step>, c: nat, showing: bool, now: Moment, reading: Reading)
    returns (more: seq<Step>)
    requires Possible(s, steps) && OnlyKept(s, After(s, steps)) && c < CAMERAS
    requires var t := After(s, steps);
             t.main.receivers[c].Some? && reading.ended ==> HasEnded(t, t.main.receivers[c].value.id)
    ensures Possible(s, more) && OnlyKept(s, After(s, more))
    ensures After(s, more).main == KeptCamera(After(s, steps).main, c, showing, now, reading)
  {
    more := steps;
    var m := After(s, steps).main;
    if m.receivers[c].Some? && reading.ended {
      OneMove(s, more, Drop(c, now));
      more := more + [Keep(Drop(c, now))];
    }
    m := After(s, more).main;
    if Unwanted(m.receivers[c], reading.listed, showing) {
      OneMove(s, more, Stop(c));
      more := more + [Keep(Stop(c))];
    }
    var ask := Ask(c, showing && reading.listed.Some?, now);
    OneMove(s, more, ask);
    more := more + [Keep(ask)];
    m := After(s, more).main;
    if Due(m, c, showing, now, reading) {
      var connect := Connect(c, reading.listed.value, reading.starts, reading.at);
      OneMove(s, more, connect);
      more := more + [Keep(connect)];
    }
  }

  /** What was read of a camera is so still when the keep comes to it. */
  lemma WhatWasReadStillEnded(
    s: System, m: Main, t: System, c: nat, showing: bool, now: Moment, ended: set<Id>, readings: seq<Reading>)
    requires Sound(s) && Truthful(s, ended, readings) && c < CAMERAS && OnlyKept(s, t)
    requires Fits(m) && m.receivers == s.main.receivers && t.main == KeptFirst(m, c, showing, now, readings)
    ensures t.main.receivers[c].Some? && readings[c].ended ==> HasEnded(t, t.main.receivers[c].value.id)
  {
    KeptFirstLeavesTheRest(m, c, showing, now, readings);
  }

  lemma {:induction false} KeepFirstIsSteps(
    s: System, steps: seq<Step>, n: nat, showing: bool, now: Moment, ended: set<Id>, readings: seq<Reading>)
    returns (more: seq<Step>)
    requires Sound(s) && Truthful(s, ended, readings) && n <= CAMERAS
    requires Possible(s, steps) && OnlyKept(s, After(s, steps)) && After(s, steps).main.receivers == s.main.receivers
    ensures Possible(s, more) && OnlyKept(s, After(s, more))
    ensures After(s, more).main == KeptFirst(After(s, steps).main, n, showing, now, readings)
    decreases n
  {
    if n == 0 {
      return steps;
    }
    more := KeepFirstIsSteps(s, steps, n - 1, showing, now, ended, readings);
    WhatWasReadStillEnded(s, After(s, steps).main, After(s, more), n - 1, showing, now, ended, readings);
    more := KeepCameraIsSteps(s, more, n - 1, showing, now, readings[n - 1]);
  }

  /** A keep that reads what is so is a run of moves: whatever every run keeps,
      `Vmix.Keep` keeps. */
  lemma KeepIsSteps(s: System, showing: bool, now: Moment, ended: set<Id>, readings: seq<Reading>)
    returns (steps: seq<Step>)
    requires Sound(s) && s.phase.Keeping? && Truthful(s, ended, readings)
    ensures Possible(s, steps) && Sound(After(s, steps)) && After(s, steps).phase.Keeping?
    ensures After(s, steps).main == Kept(s.main, showing, now, ended, readings)
  {
    var n := |s.main.ending|;
    steps := ReapIsSteps(s, n, ended);
    assert s.main.ending[..n] == s.main.ending && ReapedFirst(s.main.ending, n, ended) == Reaped(s.main.ending, ended);
    RunStaysSound(s, steps);
    steps := KeepFirstIsSteps(s, steps, CAMERAS, showing, now, ended, readings);
  }

  // ----- The helper's end

  predicate AllOver(s: System) { s.searchEnded && forall id | id in s.threads :: HasEnded(s, id) }

  /** The helper ends without its complaint only when the search and every
      receiver's thread ever started have ended. */
  lemma QuietOnlyWhenAllHaveEnded(steps: seq<Step>)
    requires Possible(STARTED, steps) && After(STARTED, steps).phase == Over(false)
    ensures AllOver(After(STARTED, steps))
  {
    RunStaysSound(STARTED, steps);
    var s := After(STARTED, steps);
    assert FlagSet(s, 0);
    forall id | id in s.threads
      ensures HasEnded(s, id)
    {
      assert ThreadSound(s, id);
      if id in s.main.ending {
        var k :| 0 <= k < |s.main.ending| && s.main.ending[k] == id;
        assert FlagSet(s, k + 1);
      }
    }
  }

  /** And when they have all ended before a check, it does not complain. */
  lemma {:induction false} NoComplaintWhenAllHaveEnded(s: System, steps: seq<Step>)
    requires Sound(s) && Possible(s, steps) && s.phase.Checking? && AllOver(s)
    ensures After(s, steps).phase != Over(true)
    ensures |steps| > 0 && (forall i | 0 <= i < |steps| :: steps[i].Check?) ==>
              |steps| <= |s.main.ending| + 2 - s.phase.read
    decreases |steps|
  {
    if |steps| > 0 {
      NextStaysSound(s, steps[0]);
      var t := Next(s, steps[0]);
      if t.phase.Checking? {
        assert AllOver(t);
        NoComplaintWhenAllHaveEnded(t, steps[1..]);
      } else {
        OverStaysOver(t, steps[1..]);
      }
    }
  }

  lemma {:induction false} OverStaysOver(s: System, steps: seq<Step>)
    requires Possible(s, steps) && s.phase.Over?
    ensures After(s, steps).phase == s.phase
    ensures |steps| > 0 ==> !steps[0].Check?
    decreases |steps|
  {
    if |steps| > 0 {
      OverStaysOver(Next(s, steps[0]), steps[1..]);
    }
  }

  lemma {:induction false} AfterThen(s: System, first: seq<Step>, second: seq<Step>)
    requires Possible(s, first) && Possible(After(s, first), second)
    ensures Possible(s, first + second) && After(s, first + second) == After(After(s, first), second)
    decreases |first|
  {
    if |first| == 0 {
      assert first + second == second;
    } else {
      AfterThen(Next(s, first[0]), first[1..], second);
      assert (first + second)[1..] == first[1..] + second;
    }
  }

  // ----- The end as the code makes it

  /** Whether the flag that a look reads as its next is set. */
  predicate ReadsSet(ending: seq<Id>, look: Look, read: nat)
    requires read <= |ending|
  {
    if read == 0 then look.search else ending[read - 1] in look.ended
  }

  /** A step of the search's or a receiver's thread. */
  predicate IsOthers(step: Step) { IsThreads(step) || step.EndSearch? }

  /** A look that reads its flags one at a time, from `read` on, while the others
      step on before each: it reads what is set by then, and stops at the first
      flag that is not. */
  predicate IsRead(s: System, look: Look, read: nat, others: seq<seq<Step>>)
    requires read <= |s.main.ending|
    decreases |s.main.ending| - read
  {
    && |others| > 0 && (forall i | 0 <= i < |others[0]| :: IsOthers(others[0][i])) && Possible(s, others[0])
    && var t := After(s, others[0]);
    && t.main == s.main
    && (ReadsSet(s.main.ending, look, read) <==> FlagSet(t, read))
    && (FlagSet(t, read) && read < |s.main.ending| ==>
          IsRead(t.(phase := Checking(read + 1)), look, read + 1, others[1..]))
  }

  lemma {:induction false} OthersLeaveTheCheck(s: System, steps: seq<Step>)
    requires Sound(s) && Possible(s, steps) && forall i | 0 <= i < |steps| :: IsOthers(steps[i])
    ensures var t := After(s, steps); Sound(t) && t.phase == s.phase && t.main == s.main
    decreases |steps|
  {
    if |steps| > 0 {
      NextStaysSound(s, steps[0]);
      OthersLeaveTheCheck(Next(s, steps[0]), steps[1..]);
    }
  }

  lemma AllReadIsAllEnded(ending: seq<Id>, look: Look)
    requires forall i | 0 <= i <= |ending| :: ReadsSet(ending, look, i)
    ensures AllEnded(ending, look)
  {
    assert ReadsSet(ending, look, 0);
    forall i | 0 <= i < |ending|
      ensures ending[i] in look.ended
    {
      assert ReadsSet(ending, look, i + 1);
    }
  }

  /** These steps are a whole look: it finds all ended, or starts over, or complains
      when it is the last. */
  predicate IsLook(s: System, look: Look, late: bool, steps: seq<Step>) {
    && Possible(s, steps)
    && var t := After(s, steps);
    && Sound(t) && t.main == s.main
    && t.phase == if AllEnded(s.main.ending, look) then Over(false) else if late then Over(true) else Checking(0)
  }

  lemma LookGoesOn(s: System, first: seq<Step>, look: Look, late: bool, more: seq<Step>)
    requires Possible(s, first) && After(s, first).main == s.main && IsLook(After(s, first), look, late, more)
    ensures IsLook(s, look, late, first + more)
  {
    AfterThen(s, first, more);
  }

  /** The last flag, and a check that finds no more. */
  lemma LookEnds(s: System, look: Look, late: bool) returns (steps: seq<Step>)
    requires Sound(s) && s.phase == Checking(|s.main.ending| + 1) && AllEnded(s.main.ending, look)
    ensures IsLook(s, look, late, steps)
  {
    steps := OneCheck(s, [], late);
  }

  /** The look has read its first `read` flags, all set, and reads on like that. */
  predicate IsReading(s: System, look: Look, read: nat, others: seq<seq<Step>>) {
    && Sound(s) && s.phase == Checking(read) && read <= |s.main.ending| && IsRead(s, look, read, others)
    && forall i | 0 <= i < read :: ReadsSet(s.main.ending, look, i)
  }

  /** What the look finds when it comes to its next flag. */
  lemma ComesToAFlag(s: System, look: Look, read: nat, others: seq<seq<Step>>)
    requires IsReading(s, look, read, others)
    ensures |others| > 0 && (forall i | 0 <= i < |others[0]| :: IsOthers(others[0][i])) && Possible(s, others[0])
    ensures var t := After(s, others[0]);
            && t.main == s.main && (ReadsSet(s.main.ending, look, read) <==> FlagSet(t, read))
            && (FlagSet(t, read) && read < |s.main.ending| ==>
                  IsRead(t.(phase := Checking(read + 1)), look, read + 1, others[1..]))
  {
  }

  /** One flag: not set, it ends the look; set, the look goes on, or was the last. */
  lemma OneFlag(s: System, look: Look, read: nat, others: seq<seq<Step>>, late: bool) returns (steps: seq<Step>)
    requires IsReading(s, look, read, others)
    ensures Possible(s, steps) && After(s, steps).main == s.main && Sound(After(s, steps))
    ensures var u := After(s, steps);
            if !ReadsSet(s.main.ending, look, read) then u.phase == if late then Over(true) else Checking(0)
            else u.phase == Checking(read + 1) && (read < |s.main.ending| ==> IsRead(u, look, read + 1, others[1..]))
  {
    ComesToAFlag(s, look, read, others);
    steps := OneCheck(s, others[0], late);
  }

  /** When the last flag is set, the check after it finds no more. */
  lemma LookGoesToItsEnd(s: System, look: Look, late: bool, first: seq<Step>) returns (steps: seq<Step>)
    requires Possible(s, first) && After(s, first).main == s.main && Sound(After(s, first))
    requires After(s, first).phase == Checking(|s.main.ending| + 1)
    requires forall i | 0 <= i <= |s.main.ending| :: ReadsSet(s.main.ending, look, i)
    ensures IsLook(s, look, late, steps)
  {
    AllReadIsAllEnded(s.main.ending, look);
    var more := LookEnds(After(s, first), look, late);
    LookGoesOn(s, first, look, late, more);
    steps := first + more;
  }

  lemma ReadsOn(s: System, u: System, look: Look, read: nat, others: seq<seq<Step>>)
    requires Sound(u) && u.main == s.main && u.phase == Checking(read + 1) && read < |s.main.ending|
    requires IsRead(u, look, read + 1, others) && forall i | 0 <= i <= read :: ReadsSet(s.main.ending, look, i)
    ensures IsReading(u, look, read + 1, others)
  {
  }

  /** One look of the code is a run of checks. */
  lemma {:induction false} ALookIsSteps(s: System, look: Look, read: nat, others: seq<seq<Step>>, late: bool)
    returns (steps: seq<Step>)
    requires IsReading(s, look, read, others)
    ensures IsLook(s, look, late, steps)
    decreases |s.main.ending| - read
  {
    steps := OneFlag(s, look, read, others, late);
    if ReadsSet(s.main.ending, look, read) {
      if read < |s.main.ending| {
        ReadsOn(s, After(s, steps), look, read, others[1..]);
        var more := ALookIsSteps(After(s, steps), look, read + 1, others[1..], late);
        LookGoesOn(s, steps, look, late, more);
        steps := steps + more;
      } else {
        steps := LookGoesToItsEnd(s, look, late, steps);
      }
    } else {
      assert !AllEnded(s.main.ending, look);
    }
  }

  /** The others step on, and a check reads its next flag. */
  lemma OneCheck(s: System, others: seq<Step>, late: bool) returns (steps: seq<Step>)
    requires Sound(s) && s.phase.Checking? && Possible(s, others) && forall i | 0 <= i < |others| :: IsOthers(others[i])
    ensures Possible(s, steps) && Sound(After(s, steps))
    ensures var t := After(s, others);
            t.main == s.main && After(s, steps) == t.(phase := Checked(t, s.phase.read, late))
  {
    OthersLeaveTheCheck(s, others);
    AfterOneMore(s, others, Check(late));
    NextStaysSound(After(s, others), Check(late));
    steps := others + [Check(late)];
  }

  /** The last keep of `Vmix.Finish` and its word to the search are steps too: then
      the checks begin, and nothing but what it keeps is left. */
  lemma FinishBeginsItsChecks(s: System, now: Moment, ended: set<Id>, readings: seq<Reading>) returns (steps: seq<Step>)
    requires Sound(s) && s.phase.Keeping? && Truthful(s, ended, readings)
    ensures Possible(s, steps) && Sound(After(s, steps))
    ensures After(s, steps).main == Kept(s.main, false, now, ended, readings) && After(s, steps).phase == Checking(0)
  {
    steps := KeepIsSteps(s, false, now, ended, readings);
    var t := After(s, steps);
    forall c | 0 <= c < CAMERAS
      ensures t.main.receivers[c].None?
    {
      KeepMeans(s.main, c, false, now, ended, readings);
    }
    AfterOneMore(s, steps, StopAll);
    NextStaysSound(t, StopAll);
    steps := steps + [StopAll];
  }

  /** Whatever came before: the complaint of `Vmix.Finish`, whose last look is read
      like that, is the machine's. Without it, the search and every receiver's
      thread ever started have ended. */
  lemma FinishIsQuietOnlyWhenAllHaveEnded(steps: seq<Step>, last: Look, others: seq<seq<Step>>)
    returns (more: seq<Step>)
    requires Possible(STARTED, steps) && After(STARTED, steps).phase == Checking(0)
    requires IsRead(After(STARTED, steps), last, 0, others)
    ensures Possible(STARTED, steps + more)
    ensures var t := After(STARTED, steps + more);
            var quiet := AllEnded(After(STARTED, steps).main.ending, last);
            t.phase == Over(!quiet) && (quiet ==> AllOver(t))
  {
    RunStaysSound(STARTED, steps);
    more := ALookIsSteps(After(STARTED, steps), last, 0, others, true);
    AfterThen(STARTED, steps, more);
    if AllEnded(After(STARTED, steps).main.ending, last) {
      QuietOnlyWhenAllHaveEnded(steps + more);
    }
  }
}

/** Runs of the deck's presses: keys of the LIGHTS page one after another under
    the lighting lock, dwelling presses taken and given back at any time, and
    moments in any order. */
module PressRuns {
  import opened Common
  import opened Presses

  datatype Entry = Entry(press: LightsPress, answer: LightsAnswer)

  /** A dwelling press that was taken: what stood before it, and how many
      moments stood below its own. `given`: it has been given back. */
  datatype Taken = Taken(name: string, before: Option<Moment>, at: Moment, level: nat, given: bool)

  /** The memory, and its history: the LIGHTS keys handled, the dwelling presses
      taken, and each key's moments, of which the memory holds the last. */
  datatype System = System(
    memory: Memory,
    log: seq<Entry>,
    taken: seq<Taken>,
    stacks: map<string, seq<Moment>>)

  const STARTED := System(NOTHING, [], [], map[])

  datatype Event = Lights(press: LightsPress) | Take(name: string, at: Moment) | GiveBack(id: nat)

  predicate Asks(name: string) { FromAction(name).Some? }

  function Stack(s: System, name: string): seq<Moment> { if name in s.stacks then s.stacks[name] else [] }

  /** A press is given back once; a dwelling key is none that asks
      (`NamesAreApart`). */
  predicate Enabled(s: System, e: Event) {
    match e
    case Lights(_) => true
    case Take(name, _) => !Asks(name)
    case GiveBack(id) => id < |s.taken| && !s.taken[id].given
  }

  /** The moment of the press still stands. */
  predicate Stands(m: Memory, t: Taken) { t.name in m.acted && m.acted[t.name] == t.at }

  function Next(s: System, e: Event): System
    requires Enabled(s, e)
  {
    match e
    case Lights(press) =>
      var (memory, answer) := LightsPressed(s.memory, press);
      s.(memory := memory, log := s.log + [Entry(press, answer)])
    case Take(name, at) =>
      var (memory, before) := TakenPress(s.memory, name, at);
      if before.None? then s.(memory := memory)
      else
        var stack := Stack(s, name);
        s.(memory := memory,
           taken := s.taken + [Taken(name, before.value, at, |stack|, false)],
           stacks := s.stacks[name := stack + [at]])
    case GiveBack(id) =>
      var t := s.taken[id];
      var stack := Stack(s, t.name);
      s.(memory := ReleasedPress(s.memory, t.name, t.before, t.at),
         taken := s.taken[id := t.(given := true)],
         stacks := if Stands(s.memory, t) && |stack| > 0
                   then s.stacks[t.name := stack[..|stack| - 1]] else s.stacks)
  }

  predicate Possible(s: System, events: seq<Event>)
    decreases |events|
  {
    |events| == 0 || (Enabled(s, events[0]) && Possible(Next(s, events[0]), events[1..]))
  }

  function After(s: System, events: seq<Event>): System
    requires Possible(s, events)
    decreases |events|
  {
    if |events| == 0 then s else After(Next(s, events[0]), events[1..])
  }

  // ----- Keys that ask

  predicate Attempts(e: Entry) { Asks(e.press.action) && (e.answer.Acted? || e.answer.ActFailed?) }

  predicate ActedBy(log: seq<Entry>, h: nat, action: string) {
    h < |log| && log[h].answer.Acted? && log[h].press.action == action && Asks(action)
  }

  /** The press k was kept and left the arm of press j alone: a press of the
      same key, or of the other one less than the dwell after that one acted. */
  ghost predicate KeptBeside(log: seq<Entry>, j: nat, k: nat)
    requires j < k < |log|
  {
    && log[k].answer.DidKeep?
    && (log[k].press.action == log[j].press.action
        || exists h: nat :: h < j && ActedBy(log, h, log[k].press.action)
                       && Within(log[h].press.at, log[k].press.at, PRESS_DWELL))
  }

  /** The press j armed the key that the arm is of, and the arm runs since. */
  ghost predicate ArmedBy(log: seq<Entry>, arm: Arm, j: nat) {
    && j < |log| && log[j].answer.DidArm?
    && FromAction(log[j].press.action) == Some(arm.key)
    && log[j].press.at == arm.at && log[j].press.target == Some(arm.target)
    && forall k | j < k < |log| :: KeptBeside(log, j, k)
  }

  /** The press i acts on the arm of press j. */
  ghost predicate ActsOn(log: seq<Entry>, i: nat, j: nat) {
    && j < i < |log| && log[j].answer.DidArm?
    && log[j].press.action == log[i].press.action
    && log[j].press.target == log[i].press.target
    && log[j].press.at + PRESS_DWELL <= log[i].press.at <= log[j].press.at + ASK_WINDOW
    && forall k | j < k < i :: KeptBeside(log, j, k)
  }

  ghost predicate HasItsArming(s: System) {
    s.memory.arm.Some? ==> exists j: nat :: ArmedBy(s.log, s.memory.arm.value, j)
  }

  /** The memory holds the moment of the key's last act. */
  ghost predicate HasItsAct(s: System, action: string) {
    Asks(action) && action in s.memory.acted ==>
      exists h: nat :: ActedBy(s.log, h, action) && s.log[h].press.at == s.memory.acted[action]
  }

  predicate ArmAfterAct(s: System) {
    s.memory.arm.Some? && Action(s.memory.arm.value.key) in s.memory.acted ==>
      s.memory.acted[Action(s.memory.arm.value.key)] + PRESS_DWELL <= s.memory.arm.value.at
  }

  ghost predicate WasArmed(s: System, i: nat)
    requires i < |s.log|
  {
    Attempts(s.log[i]) ==> exists j: nat :: ActsOn(s.log, i, j)
  }

  /** The last act of a key, its arm, and every act's arming are in the log. */
  ghost predicate AskingSound(s: System) {
    && HasItsArming(s) && ArmAfterAct(s)
    && (forall action :: HasItsAct(s, action))
    && (forall i | 0 <= i < |s.log| :: WasArmed(s, i))
  }

  predicate IsAct(e: Entry) { e.answer.Acted? && Asks(e.press.action) }

  predicate NotAfterTheLast(m: Memory, e: Entry) {
    IsAct(e) ==> e.press.action in m.acted && e.press.at <= m.acted[e.press.action]
  }

  predicate Apart(e: Entry, f: Entry) {
    IsAct(e) && IsAct(f) && e.press.action == f.press.action ==> e.press.at + 2 * PRESS_DWELL <= f.press.at
  }

  /** Two successful acts of one key are twice the dwell apart. */
  predicate ActsApart(s: System) {
    && (forall i | 0 <= i < |s.log| :: NotAfterTheLast(s.memory, s.log[i]))
    && (forall i, k | 0 <= i < k < |s.log| :: Apart(s.log[i], s.log[k]))
  }

  lemma OlderEntriesStay(log: seq<Entry>, e: Entry)
    ensures forall j, k | 0 <= j < k < |log| && KeptBeside(log, j, k) :: KeptBeside(log + [e], j, k)
    ensures forall i, j | 0 <= j < i < |log| && ActsOn(log, i, j) :: ActsOn(log + [e], i, j)
    ensures forall h, action | 0 <= h < |log| && ActedBy(log, h, action) :: ActedBy(log + [e], h, action)
  {
    var more := log + [e];
    forall h, action | 0 <= h < |log| && ActedBy(log, h, action)
      ensures ActedBy(more, h, action)
    {
    }
    forall j, k | 0 <= j < k < |log| && KeptBeside(log, j, k)
      ensures KeptBeside(more, j, k)
    {
    }
    forall i, j | 0 <= j < i < |log| && ActsOn(log, i, j)
      ensures ActsOn(more, i, j)
    {
      forall k | j < k < i
        ensures KeptBeside(more, j, k)
      {
        assert KeptBeside(log, j, k);
      }
    }
  }

  lemma AskingActions(action: string)
    requires Asks(action)
    ensures Action(FromAction(action).value) == action
  {
  }

  /** A press that is kept and leaves an arm standing. */
  lemma KeptLeavesArmed(s: System, press: LightsPress)
    requires AskingSound(s)
    requires var t := Next(s, Lights(press)); t.memory.arm.Some? && t.memory.arm == s.memory.arm
    requires Next(s, Lights(press)).log[|s.log|].answer.DidKeep?
    ensures exists j: nat :: ArmedBy(Next(s, Lights(press)).log, s.memory.arm.value, j)
  {
    var t := Next(s, Lights(press));
    var arm, n := s.memory.arm.value, |s.log|;
    OlderEntriesStay(s.log, t.log[n]);
    var j: nat :| ArmedBy(s.log, arm, j);
    if FromAction(press.action) != Some(arm.key) {
      AskingActions(press.action);
      assert HasItsAct(s, press.action) && Dwells(s.memory, press.action, press.at);
      var h: nat :| ActedBy(s.log, h, press.action) && s.log[h].press.at == s.memory.acted[press.action];
      assert j < h ==> KeptBeside(s.log, j, h);
      assert ActedBy(t.log, h, t.log[n].press.action);
    }
    assert KeptBeside(t.log, j, n);
    forall k | j < k < |t.log|
      ensures KeptBeside(t.log, j, k)
    {
      if k < n {
        assert KeptBeside(s.log, j, k);
      }
    }
    assert ArmedBy(t.log, arm, j);
  }

  lemma LightsKeepsTheArm(s: System, press: LightsPress)
    requires AskingSound(s)
    ensures var t := Next(s, Lights(press));
            && (t.memory.arm.Some? ==> exists j: nat :: ArmedBy(t.log, t.memory.arm.value, j))
            && (t.memory.arm.Some? && Action(t.memory.arm.value.key) in t.memory.acted ==>
                  t.memory.acted[Action(t.memory.arm.value.key)] + PRESS_DWELL <= t.memory.arm.value.at)
  {
    var t := Next(s, Lights(press));
    if t.memory.arm.Some? {
      if t.log[|s.log|].answer.DidArm? {
        assert ArmedBy(t.log, t.memory.arm.value, |s.log|);
      } else {
        KeptLeavesArmed(s, press);
      }
    }
  }

  lemma LightsActsOnItsArm(s: System, press: LightsPress)
    requires AskingSound(s) && Attempts(Next(s, Lights(press)).log[|s.log|])
    ensures exists j: nat :: ActsOn(Next(s, Lights(press)).log, |s.log|, j)
  {
    var t := Next(s, Lights(press));
    OlderEntriesStay(s.log, t.log[|s.log|]);
    var j: nat :| ArmedBy(s.log, s.memory.arm.value, j);
    forall k | j < k < |s.log|
      ensures KeptBeside(t.log, j, k)
    {
      assert KeptBeside(s.log, j, k);
    }
    assert ActsOn(t.log, |s.log|, j);
  }

  lemma LightsKeepsItsAct(s: System, press: LightsPress, action: string)
    requires HasItsAct(s, action)
    ensures HasItsAct(Next(s, Lights(press)), action)
  {
    var t := Next(s, Lights(press));
    var n := |s.log|;
    if Asks(action) && action in t.memory.acted {
      if t.log[n].answer.Acted? && press.action == action {
        assert ActedBy(t.log, n, action);
      } else {
        var h: nat :| ActedBy(s.log, h, action) && s.log[h].press.at == s.memory.acted[action];
        assert ActedBy(t.log, h, action);
      }
    }
  }

  lemma LightsStaysSound(s: System, press: LightsPress)
    requires AskingSound(s)
    ensures AskingSound(Next(s, Lights(press)))
  {
    var t := Next(s, Lights(press));
    var n := |s.log|;
    assert t.log == s.log + [t.log[n]];
    OlderEntriesStay(s.log, t.log[n]);
    LightsKeepsTheArm(s, press);
    forall action
      ensures HasItsAct(t, action)
    {
      LightsKeepsItsAct(s, press, action);
    }
    forall i | 0 <= i < |t.log|
      ensures WasArmed(t, i)
    {
      if i < n {
        OldActsWereArmed(s, t.log[n], i);
      } else if Attempts(t.log[n]) {
        LightsActsOnItsArm(s, press);
      }
    }
  }

  lemma OldActsWereArmed(s: System, e: Entry, i: nat)
    requires i < |s.log| && WasArmed(s, i)
    ensures Attempts(s.log[i]) ==> exists j: nat :: ActsOn(s.log + [e], i, j)
  {
    if Attempts(s.log[i]) {
      OlderEntriesStay(s.log, e);
      var j: nat :| ActsOn(s.log, i, j);
      assert ActsOn(s.log + [e], i, j);
    }
  }

  /** What a successful act does to the memory, and when it can come. */
  lemma AnActComesLate(s: System, press: LightsPress)
    requires ArmAfterAct(s) && IsAct(Next(s, Lights(press)).log[|s.log|])
    ensures press.action in s.memory.acted ==> s.memory.acted[press.action] + 2 * PRESS_DWELL <= press.at
    ensures Next(s, Lights(press)).memory.acted == s.memory.acted[press.action := press.at]
  {
    AskingActions(press.action);
  }

  lemma NoActLeavesTheMoments(s: System, press: LightsPress)
    requires !IsAct(Next(s, Lights(press)).log[|s.log|])
    ensures Next(s, Lights(press)).memory.acted == s.memory.acted
  {
  }

  lemma LightsStaysApart(s: System, press: LightsPress)
    requires ArmAfterAct(s) && ActsApart(s)
    ensures ActsApart(Next(s, Lights(press)))
  {
    var t := Next(s, Lights(press));
    var n := |s.log|;
    var e := t.log[n];
    assert t.log == s.log + [e] && e.press == press;
    if IsAct(e) {
      AnActComesLate(s, press);
    } else {
      NoActLeavesTheMoments(s, press);
    }
    forall i | 0 <= i < n
      ensures NotAfterTheLast(t.memory, s.log[i]) && Apart(s.log[i], e)
    {
      assert NotAfterTheLast(s.memory, s.log[i]);
    }
  }

  // ----- Dwelling keys

  predicate SpacedOut(stack: seq<Moment>) {
    forall i, j | 0 <= i < j < |stack| :: stack[i] + PRESS_DWELL <= stack[j]
  }

  /** A press that has not been given back has its own place in its key's
      moments, above the one that stood before it. */
  predicate InPlace(s: System, t: Taken) {
    var stack := Stack(s, t.name);
    && t.level < |stack| && stack[t.level] == t.at
    && t.before == if t.level == 0 then None else Some(stack[t.level - 1])
  }

  /** The memory holds the last of the key's moments. */
  predicate StackSound(s: System, name: string) {
    var stack := Stack(s, name);
    && SpacedOut(stack)
    && (name in s.memory.acted <==> |stack| > 0)
    && (|stack| > 0 ==> s.memory.acted[name] == stack[|stack| - 1])
  }

  predicate PlaceSound(s: System, t: Taken) { !Asks(t.name) && (!t.given ==> InPlace(s, t)) }

  predicate PlacesApart(t: Taken, u: Taken) { !t.given && !u.given && t.name == u.name ==> t.level != u.level }

  ghost predicate DwellingSound(s: System) {
    && (forall name | !Asks(name) :: StackSound(s, name))
    && (forall id | 0 <= id < |s.taken| :: PlaceSound(s, s.taken[id]))
    && (forall a, b | 0 <= a < b < |s.taken| :: PlacesApart(s.taken[a], s.taken[b]))
  }

  lemma TakeKeepsStack(s: System, name: string, at: Moment, other: string)
    requires StackSound(s, name) && StackSound(s, other)
    requires Enabled(s, Take(name, at))
    ensures StackSound(Next(s, Take(name, at)), other)
    ensures Stack(s, other) <= Stack(Next(s, Take(name, at)), other)
  {
    if other == name {
      var stack := Stack(s, name);
      if |stack| > 0 && !Dwells(s.memory, name, at) {
        assert s.memory.acted[name] + PRESS_DWELL <= at;
        forall i | 0 <= i < |stack|
          ensures stack[i] + PRESS_DWELL <= at
        {
          assert stack[i] <= stack[|stack| - 1];
        }
      }
    }
  }

  lemma InPlaceStays(s: System, u: System, t: Taken)
    requires InPlace(s, t) && t.level < |Stack(u, t.name)|
    requires Stack(s, t.name) <= Stack(u, t.name) || Stack(u, t.name) <= Stack(s, t.name)
    ensures InPlace(u, t)
  {
  }

  lemma TakenPressIsInPlace(s: System, name: string, at: Moment)
    requires StackSound(s, name) && Enabled(s, Take(name, at)) && !Dwells(s.memory, name, at)
    ensures var u := Next(s, Take(name, at));
            && |u.taken| == |s.taken| + 1 && u.taken[..|s.taken|] == s.taken
            && var t := u.taken[|s.taken|]; t.name == name && t.level == |Stack(s, name)| && InPlace(u, t)
  {
  }

  lemma TakeStaysSound(s: System, name: string, at: Moment)
    requires DwellingSound(s) && Enabled(s, Take(name, at))
    ensures DwellingSound(Next(s, Take(name, at)))
  {
    assert StackSound(s, name);
    if !Dwells(s.memory, name, at) {
      TakenPressIsInPlace(s, name, at);
    }
    var u := Next(s, Take(name, at));
    forall other | !Asks(other)
      ensures StackSound(u, other)
    {
      TakeKeepsStack(s, name, at, other);
    }
    forall id | 0 <= id < |s.taken|
      ensures PlaceSound(u, s.taken[id])
      ensures |u.taken| > |s.taken| ==> PlacesApart(s.taken[id], u.taken[|s.taken|])
    {
      var t := s.taken[id];
      assert PlaceSound(s, t);
      if !t.given {
        TakeKeepsStack(s, name, at, t.name);
        InPlaceStays(s, u, t);
      }
    }
  }

  /** A give-back whose moment still stands takes the top of its key's moments
      away; it leaves all others alone. */
  lemma GiveBackPops(s: System, id: nat)
    requires DwellingSound(s) && Enabled(s, GiveBack(id))
    ensures var t, u := s.taken[id], Next(s, GiveBack(id));
            var stack := Stack(s, t.name);
            && |stack| > 0
            && (Stands(s.memory, t) <==> t.level == |stack| - 1)
            && Stack(u, t.name) == (if Stands(s.memory, t) then stack[..t.level] else stack)
            && StackSound(u, t.name)
  {
    var t := s.taken[id];
    assert PlaceSound(s, t) && StackSound(s, t.name);
    var stack := Stack(s, t.name);
    assert t.level < |stack| - 1 ==> stack[t.level] + PRESS_DWELL <= stack[|stack| - 1];
  }

  lemma GiveBackLeavesOthers(s: System, id: nat, other: string)
    requires Enabled(s, GiveBack(id)) && other != s.taken[id].name && StackSound(s, other)
    ensures Stack(Next(s, GiveBack(id)), other) == Stack(s, other) && StackSound(Next(s, GiveBack(id)), other)
  {
  }

  lemma GiveBackKeepsPlace(s: System, id: nat, other: nat)
    requires DwellingSound(s) && Enabled(s, GiveBack(id)) && other < |s.taken|
    ensures PlaceSound(Next(s, GiveBack(id)), Next(s, GiveBack(id)).taken[other])
  {
    var t, u := s.taken[other], Next(s, GiveBack(id));
    assert PlaceSound(s, t);
    if other != id && !t.given {
      if t.name == s.taken[id].name {
        GiveBackPops(s, id);
        assert if other < id then PlacesApart(t, s.taken[id]) else PlacesApart(s.taken[id], t);
      } else {
        GiveBackLeavesOthers(s, id, t.name);
      }
      InPlaceStays(s, u, t);
    }
  }

  lemma GiveBackStaysSound(s: System, id: nat)
    requires DwellingSound(s) && Enabled(s, GiveBack(id))
    ensures DwellingSound(Next(s, GiveBack(id)))
  {
    var u := Next(s, GiveBack(id));
    GiveBackPops(s, id);
    forall name | !Asks(name)
      ensures StackSound(u, name)
    {
      assert StackSound(s, name);
      if name != s.taken[id].name {
        GiveBackLeavesOthers(s, id, name);
      }
    }
    forall other | 0 <= other < |u.taken|
      ensures PlaceSound(u, u.taken[other])
    {
      GiveBackKeepsPlace(s, id, other);
    }
    forall a, b | 0 <= a < b < |u.taken|
      ensures PlacesApart(u.taken[a], u.taken[b])
    {
      assert PlacesApart(s.taken[a], s.taken[b]);
    }
  }

  lemma LightsLeavesMoments(s: System, press: LightsPress, name: string)
    requires !Asks(name)
    ensures var u := Next(s, Lights(press));
            && (name in u.memory.acted <==> name in s.memory.acted)
            && (name in s.memory.acted ==> u.memory.acted[name] == s.memory.acted[name])
  {
  }

  lemma LightsLeavesDwelling(s: System, press: LightsPress)
    requires DwellingSound(s)
    ensures DwellingSound(Next(s, Lights(press)))
  {
    var u := Next(s, Lights(press));
    assert u.taken == s.taken && u.stacks == s.stacks;
    forall name | !Asks(name)
      ensures StackSound(u, name)
    {
      assert StackSound(s, name);
      LightsLeavesMoments(s, press, name);
    }
    forall id | 0 <= id < |u.taken|
      ensures PlaceSound(u, u.taken[id])
    {
      assert PlaceSound(s, s.taken[id]);
    }
  }

  lemma DwellingLeavesMoments(s: System, e: Event, action: string)
    requires Enabled(s, e) && !e.Lights? && Asks(action) && (e.GiveBack? ==> !Asks(s.taken[e.id].name))
    ensures var u := Next(s, e);
            && u.log == s.log && u.memory.arm == s.memory.arm
            && (action in u.memory.acted <==> action in s.memory.acted)
            && (action in s.memory.acted ==> u.memory.acted[action] == s.memory.acted[action])
  {
  }

  lemma DwellingLeavesAsking(s: System, e: Event)
    requires AskingSound(s) && ActsApart(s) && DwellingSound(s) && Enabled(s, e) && !e.Lights?
    ensures AskingSound(Next(s, e)) && ActsApart(Next(s, e))
  {
    var u := Next(s, e);
    if e.GiveBack? {
      assert PlaceSound(s, s.taken[e.id]);
    }
    DwellingLeavesMoments(s, e, "allOff");
    forall action
      ensures HasItsAct(u, action)
    {
      assert HasItsAct(s, action);
      if Asks(action) {
        DwellingLeavesMoments(s, e, action);
      }
    }
    forall i | 0 <= i < |u.log|
      ensures WasArmed(u, i) && NotAfterTheLast(u.memory, u.log[i])
    {
      assert WasArmed(s, i) && NotAfterTheLast(s.memory, s.log[i]);
      if IsAct(u.log[i]) {
        DwellingLeavesMoments(s, e, u.log[i].press.action);
      }
    }
    if u.memory.arm.Some? {
      DwellingLeavesMoments(s, e, Action(u.memory.arm.value.key));
    }
  }

  // ----- Whole runs

  ghost predicate Sound(s: System) { AskingSound(s) && ActsApart(s) && DwellingSound(s) }

  lemma NextStaysSound(s: System, e: Event)
    requires Sound(s) && Enabled(s, e)
    ensures Sound(Next(s, e))
  {
    match e
    case Lights(press) =>
      LightsStaysSound(s, press);
      LightsStaysApart(s, press);
      LightsLeavesDwelling(s, press);
    case Take(name, at) =>
      TakeStaysSound(s, name, at);
      DwellingLeavesAsking(s, e);
    case GiveBack(id) =>
      GiveBackStaysSound(s, id);
      DwellingLeavesAsking(s, e);
  }

  lemma {:induction false} RunStaysSound(s: System, events: seq<Event>)
    requires Sound(s) && Possible(s, events)
    ensures Sound(After(s, events))
    decreases |events|
  {
    if |events| > 0 {
      NextStaysSound(s, events[0]);
      RunStaysSound(Next(s, events[0]), events[1..]);
    }
  }

  /** In every run, each act of a key that asks, successful or failed, follows
      an arming press of its own, about the same target, at least the dwell and
      at most the window earlier, and nothing between the two touched the arm. */
  lemma EveryActWasArmed(events: seq<Event>, i: nat)
    requires Possible(STARTED, events)
    requires var log := After(STARTED, events).log; i < |log| && Attempts(log[i])
    ensures exists j: nat :: ActsOn(After(STARTED, events).log, i, j)
  {
    RunStaysSound(STARTED, events);
    assert WasArmed(After(STARTED, events), i);
  }

  /** Each arm is spent once: the later of two acts was armed after the earlier. */
  lemma ArmsAreSpentOnce(log: seq<Entry>, i: nat, j: nat, k: nat, l: nat)
    requires ActsOn(log, i, j) && ActsOn(log, k, l) && i < k && Attempts(log[i])
    ensures i < l
  {
    assert l < i ==> KeptBeside(log, l, i);
  }

  /** In every run, successful acts of one key are at least twice the dwell
      apart, in the order they were handled. */
  lemma ActsAreTwiceTheDwellApart(events: seq<Event>, i: nat, k: nat)
    requires Possible(STARTED, events)
    requires var log := After(STARTED, events).log;
             && i < k < |log| && log[i].answer.Acted? && log[k].answer.Acted?
             && Asks(log[i].press.action) && log[i].press.action == log[k].press.action
    ensures var log := After(STARTED, events).log; log[i].press.at + 2 * PRESS_DWELL <= log[k].press.at
  {
    RunStaysSound(STARTED, events);
    assert Apart(After(STARTED, events).log[i], After(STARTED, events).log[k]);
  }

  /** In every run, a press of a dwelling key that was taken and not given back is
      no later than the moment the memory holds: a give-back never uncovers one
      earlier than a press that still stands. */
  lemma NoGiveBackUncoversEarlier(events: seq<Event>, a: nat)
    requires Possible(STARTED, events)
    requires var taken := After(STARTED, events).taken; a < |taken| && !taken[a].given
    ensures var s := After(STARTED, events);
            s.taken[a].name in s.memory.acted && s.taken[a].at <= s.memory.acted[s.taken[a].name]
  {
    RunStaysSound(STARTED, events);
    StandsUnderTheTop(After(STARTED, events), a);
  }

  lemma StandsUnderTheTop(s: System, a: nat)
    requires DwellingSound(s) && a < |s.taken| && !s.taken[a].given
    ensures s.taken[a].name in s.memory.acted && s.taken[a].at <= s.memory.acted[s.taken[a].name]
  {
    var press := s.taken[a];
    assert PlaceSound(s, press) && StackSound(s, press.name);
    NoneAboveTheTop(Stack(s, press.name), press.level);
  }

  /** And two of one key are at least the dwell apart. */
  lemma StandingPressesAreTheDwellApart(events: seq<Event>, a: nat, b: nat)
    requires Possible(STARTED, events)
    requires var taken := After(STARTED, events).taken;
             && a < b < |taken| && !taken[a].given && !taken[b].given && taken[a].name == taken[b].name
    ensures var s := After(STARTED, events);
            s.taken[a].at + PRESS_DWELL <= s.taken[b].at || s.taken[b].at + PRESS_DWELL <= s.taken[a].at
  {
    RunStaysSound(STARTED, events);
    TwoStandApart(After(STARTED, events), a, b);
  }

  lemma TwoStandApart(s: System, a: nat, b: nat)
    requires DwellingSound(s) && a < b < |s.taken| && !s.taken[a].given && !s.taken[b].given
    requires s.taken[a].name == s.taken[b].name
    ensures s.taken[a].at + PRESS_DWELL <= s.taken[b].at || s.taken[b].at + PRESS_DWELL <= s.taken[a].at
  {
    var first, second := s.taken[a], s.taken[b];
    assert PlaceSound(s, first) && PlaceSound(s, second) && PlacesApart(first, second);
    assert StackSound(s, first.name);
  }

  lemma NoneAboveTheTop(stack: seq<Moment>, i: nat)
    requires SpacedOut(stack) && i < |stack|
    ensures stack[i] <= stack[|stack| - 1]
  {
  }

  lemma OneEvent(s: System, e: Event, rest: seq<Event>)
    requires Enabled(s, e) && Possible(Next(s, e), rest)
    ensures Possible(s, [e] + rest) && After(s, [e] + rest) == After(Next(s, e), rest)
  {
    assert ([e] + rest)[1..] == rest;
  }

  lemma DwellingKeysDoNotAsk(path: string, action: string, value: Option<string>)
    requires DwellingPress(path, action, value).Some?
    ensures !Asks(DwellingPress(path, action, value).value)
  {
    NamesAreApart(path, action, value, path, action, value, AllOff);
    NamesAreApart(path, action, value, path, action, value, DeleteScene);
  }

  predicate IsTaken(t: Taken, name: string, at: Moment) { !t.given && t.name == name && t.at == at }

  /** What a press does once it is taken: it acts, and is given back if it fails. */
  lemma ATakenKeyIsARun(s: System, name: Option<string>, lights: bool, press: LightsPress) returns (events: seq<Event>)
    requires name.Some? ==> |s.taken| > 0 && IsTaken(s.taken[|s.taken| - 1], name.value, press.at)
    ensures Possible(s, events)
    ensures var (done, answer) :=
              if lights then LightsPressed(s.memory, press)
              else (s.memory, if press.succeeds then Handled else ActFailed);
            After(s, events).memory
            == if name.Some? && (answer.Refused? || answer.ActFailed?)
               then ReleasedPress(done, name.value, s.taken[|s.taken| - 1].before, press.at) else done
  {
    events := [];
    var u := s;
    var answer := if press.succeeds then Handled else ActFailed;
    if lights {
      u := Next(s, Lights(press));
      answer := LightsPressed(s.memory, press).1;
    }
    if name.Some? && (answer.Refused? || answer.ActFailed?) {
      OneEvent(u, GiveBack(|s.taken| - 1), []);
      events := [GiveBack(|s.taken| - 1)] + [];
    }
    if lights {
      OneEvent(s, Lights(press), events);
      events := [Lights(press)] + events;
    }
  }

  /** A key of the deck is a run of such events: whatever every run keeps,
      `PressMemory.DeckKey` keeps. */
  lemma ADeckKeyIsARun(s: System, path: string, value: Option<string>, press: LightsPress) returns (events: seq<Event>)
    ensures Possible(s, events)
    ensures After(s, events).memory
            == DeckPressed(s.memory, DwellingPress(path, press.action, value), path == LIGHT_ROUTE, press).0
  {
    var name := DwellingPress(path, press.action, value);
    if name.None? {
      events := ATakenKeyIsARun(s, name, path == LIGHT_ROUTE, press);
      return;
    }
    DwellingKeysDoNotAsk(path, press.action, value);
    var take := Take(name.value, press.at);
    var u := Next(s, take);
    events := [];
    if !Dwells(s.memory, name.value, press.at) {
      events := ATakenKeyIsARun(u, name, path == LIGHT_ROUTE, press);
    }
    OneEvent(s, take, events);
    events := [take] + events;
  }

  // ----- What a key shows

  /** No press among them is of the key itself. */
  predicate NoneOf(events: seq<Event>, key: AskingKey) {
    forall i | 0 <= i < |events| :: events[i].Lights? ==> FromAction(events[i].press.action) != Some(key)
  }

  /** The key's arm is the one it had, or there is none of it. */
  predicate NotArmedSince(m: Memory, later: Memory, key: AskingKey) {
    later.arm.Some? && later.arm.value.key == key ==> later.arm == m.arm
  }

  lemma {:induction false} OthersDoNotArm(s: System, events: seq<Event>, key: AskingKey)
    requires Possible(s, events) && NoneOf(events, key)
    ensures NotArmedSince(s.memory, After(s, events).memory, key)
    decreases |events|
  {
    if |events| > 0 {
      assert NotArmedSince(s.memory, Next(s, events[0]).memory, key);
      assert forall i | 0 <= i < |events[1..]| :: events[1..][i] == events[i + 1];
      OthersDoNotArm(Next(s, events[0]), events[1..], key);
    }
  }

  /** A key that shows its name at a moment never acts at its next press, if that
      arrives no earlier, whatever other presses come between. */
  lemma ANameShownNeverActsNext(s: System, shown: Moment, events: seq<Event>, key: AskingKey, press: LightsPress)
    requires Possible(s, events) && NoneOf(events, key) && FromAction(press.action) == Some(key)
    requires KeyText(s.memory, key, shown) == Text(key, false) && shown <= press.at
    ensures !Attempts(Entry(press, LightsPressed(After(s, events).memory, press).1))
  {
    OthersDoNotArm(s, events, key);
    TextsDiffer(key);
  }

  lemma TextsDiffer(key: AskingKey)
    ensures Text(key, true) != Text(key, false)
  {
    assert Text(key, true)[|Text(key, true)| - 1] == '?';
  }

  /** One that arrived before the name was shown still acts, if and only if the
      arm that had run out by then had not when the press came. */
  lemma AnEarlierPressMayAct(m: Memory, shown: Moment, key: AskingKey, target: AskTarget, at: Moment)
    requires KeyText(m, key, shown) == Text(key, false)
    ensures AskedOf(m, key, target, at).1.Act? <==>
              && m.arm == Some(Arm(key, if m.arm.Some? then m.arm.value.at else 0, target))
              && m.arm.value.at + PRESS_DWELL <= at <= m.arm.value.at + ASK_WINDOW < shown
              && !Dwells(m, Action(key), at)
  {
    TextsDiffer(key);
  }

  /** The press after the one that armed acts if and only if it is about the same
      target, at least the dwell later and at most the window. */
  lemma TheSecondPressActsIff(m: Memory, first: LightsPress, second: LightsPress)
    requires LightsPressed(m, first).1.DidArm? && second.action == first.action && second.target.Some?
    ensures var (armed, _) := LightsPressed(m, first);
            LightsPressed(armed, second).1 in {Acted, ActFailed}
            <==> && second.target == first.target
                 && first.at + PRESS_DWELL <= second.at <= first.at + ASK_WINDOW
  {
    AskingActions(first.action);
  }

  /** A second press in time but about something else ends the arm: the press
      after it does not act, whatever it is about. */
  lemma APressAboutSomethingElseEndsTheArm(m: Memory, first: LightsPress, second: LightsPress, third: LightsPress)
    requires LightsPressed(m, first).1.DidArm? && second.target.Some? && second.target != first.target
    requires second.action == first.action == third.action && first.at <= second.at <= first.at + ASK_WINDOW
    ensures var (armed, _) := LightsPressed(m, first);
            var (ended, answer) := LightsPressed(armed, second);
            answer.DidKeep? && ended.arm.None? && !Attempts(Entry(third, LightsPressed(ended, third).1))
  {
    AskingActions(first.action);
  }

  /** A press of another LIGHTS key ends a key's arm, unless that other key asks
      too and acted less than the dwell ago. */
  lemma AnotherKeyEndsTheArm(m: Memory, press: LightsPress)
    requires m.arm.Some? && FromAction(press.action) != Some(m.arm.value.key)
    ensures LightsPressed(m, press).0.arm == m.arm <==>
              FromAction(press.action).Some? && press.target.Some? && Dwells(m, press.action, press.at)
  {
    if FromAction(press.action).Some? {
      AskingActions(press.action);
    }
  }

  function Pressed(s: System, press: LightsPress): System { Next(s, Lights(press)) }

  lemma TwoPresses(s: System, a: LightsPress, b: LightsPress)
    ensures Possible(s, [Lights(a), Lights(b)]) && After(s, [Lights(a), Lights(b)]) == Pressed(Pressed(s, a), b)
  {
    OneEvent(Pressed(s, a), Lights(b), []);
    OneEvent(s, Lights(a), [Lights(b)]);
    assert [Lights(a)] + [Lights(b)] == [Lights(a), Lights(b)] && [Lights(b)] + [] == [Lights(b)];
  }

  lemma {:induction false} AfterMore(s: System, first: seq<Event>, second: seq<Event>)
    requires Possible(s, first) && Possible(After(s, first), second)
    ensures Possible(s, first + second) && After(s, first + second) == After(After(s, first), second)
    decreases |first|
  {
    if |first| == 0 {
      assert first + second == second;
    } else {
      AfterMore(Next(s, first[0]), first[1..], second);
      assert (first + second)[1..] == first[1..] + second;
    }
  }

  /** `Del Scene` has acted. */
  lemma DeleteSceneActs(scene: string) returns (events: seq<Event>)
    ensures Possible(STARTED, events)
    ensures var s := After(STARTED, events);
            s.memory == Memory(None, map["deleteScene" := PRESS_DWELL]) && |s.log| == 2
  {
    var first := LightsPress("deleteScene", Some(Scene(scene)), 0, true);
    var second := first.(at := PRESS_DWELL);
    TwoPresses(STARTED, first, second);
    events := [Lights(first), Lights(second)];
  }

  /** So an arm can outlive another LIGHTS key, in a run from the start: `Del Scene`
      acts, `All Off` is armed, `Del Scene` is pressed again at once, and `All Off`
      still acts. */
  lemma AnArmMayOutliveAnotherKey(scene: string)
    ensures exists events :: Possible(STARTED, events) && var log := After(STARTED, events).log;
              && |log| == 5 && log[2].answer.DidArm? && log[2].press.action == "allOff"
              && log[3].press.action == "deleteScene" && log[3].answer.DidKeep?
              && log[4].press.action == "allOff" && log[4].answer.Acted?
  {
    var events := DeleteSceneActs(scene);
    var s := After(STARTED, events);
    var arm := LightsPress("allOff", Some(Previewing(false)), PRESS_DWELL + 1, true);
    var again := LightsPress("deleteScene", Some(Scene(scene)), PRESS_DWELL + 2, true);
    var act := arm.(at := 2 * PRESS_DWELL + 1);
    TwoPresses(s, arm, again);
    var u := Pressed(Pressed(s, arm), again);
    assert u.memory.arm == Some(Arm(AllOff, PRESS_DWELL + 1, Previewing(false)));
    OneEvent(u, Lights(act), []);
    AfterMore(s, [Lights(arm), Lights(again)], [Lights(act)] + []);
    AfterMore(STARTED, events, [Lights(arm), Lights(again)] + ([Lights(act)] + []));
  }

  /** And a key can act after it has shown its name, in a run from the start: it
      arms, its window passes and its display reads the name, and then a press
      comes that had arrived within the window. */
  lemma ALatePressActs()
    ensures exists events, press: LightsPress, shown :: Possible(STARTED, events)
              && var m := After(STARTED, events).memory;
              && press.action == "allOff" && press.at < shown
              && KeyText(m, AllOff, shown) == Text(AllOff, false) && LightsPressed(m, press).1.Acted?
  {
    var arm := LightsPress("allOff", Some(Previewing(false)), 0, true);
    OneEvent(STARTED, Lights(arm), []);
    var m := Pressed(STARTED, arm).memory;
    assert m.arm == Some(Arm(AllOff, 0, Previewing(false)));
    assert KeyText(m, AllOff, ASK_WINDOW + 1) == Text(AllOff, false);
    assert LightsPressed(m, arm.(at := PRESS_DWELL)).1.Acted?;
  }

  // ----- Give-backs out of order

  /** Every moment of the key is a press's that still stands. */
  ghost predicate AllStand(s: System, name: string) {
    forall i | 0 <= i < |Stack(s, name)| :: HasOwner(s, name, i)
  }

  predicate IsOwner(s: System, id: nat, name: string, i: nat) {
    id < |s.taken| && !s.taken[id].given && s.taken[id].name == name && s.taken[id].level == i
  }

  ghost predicate HasOwner(s: System, name: string, i: nat) { exists id: nat :: IsOwner(s, id, name, i) }

  lemma OnlyOneIsInPlace(s: System, id: nat, other: nat)
    requires DwellingSound(s) && id < |s.taken| && !s.taken[id].given
    ensures IsOwner(s, other, s.taken[id].name, s.taken[id].level) ==> other == id
  {
    if other < id {
      assert PlacesApart(s.taken[other], s.taken[id]);
    } else if id < other < |s.taken| {
      assert PlacesApart(s.taken[id], s.taken[other]);
    }
  }

  /** A failed press leaves no moment behind if and only if its own stands when
      it is given back: given back later, its moment stays, and stands again
      when the presses after it are given back. */
  lemma GiveBackLeavesNothingIff(s: System, id: nat)
    requires DwellingSound(s) && Enabled(s, GiveBack(id)) && AllStand(s, s.taken[id].name)
    ensures AllStand(Next(s, GiveBack(id)), s.taken[id].name) <==> Stands(s.memory, s.taken[id])
  {
    var t, u := s.taken[id], Next(s, GiveBack(id));
    GiveBackPops(s, id);
    if Stands(s.memory, t) {
      forall i | 0 <= i < |Stack(u, t.name)|
        ensures HasOwner(u, t.name, i)
      {
        assert HasOwner(s, t.name, i);
        var owner: nat :| IsOwner(s, owner, t.name, i);
        assert IsOwner(u, owner, t.name, i);
      }
    } else {
      assert PlaceSound(s, t);
      forall other: nat
        ensures !IsOwner(u, other, t.name, t.level)
      {
        OnlyOneIsInPlace(s, id, other);
      }
      assert !HasOwner(u, t.name, t.level) && t.level < |Stack(u, t.name)|;
    }
  }

  /** So a failed press may drop another, in a run from the start: two are taken and
      both fail, the first given back late, and a third is still the same again. */
  lemma AFailedPressMayDropAnother(name: string)
    requires !Asks(name)
    ensures exists events :: Possible(STARTED, events) && var s := After(STARTED, events);
              && |s.taken| == 2 && (forall id | 0 <= id < |s.taken| :: s.taken[id].given && s.taken[id].name == name)
              && Dwells(s.memory, name, PRESS_DWELL - 1)
  {
    var first, second := Take(name, 0), Take(name, PRESS_DWELL);
    var s1 := Next(STARTED, first);
    var s2 := Next(s1, second);
    var s3 := Next(s2, GiveBack(0));
    assert s2.memory.acted == map[name := PRESS_DWELL] && s3.memory == s2.memory;
    var s4 := Next(s3, GiveBack(1));
    assert s4.memory.acted == map[name := 0];
    OneEvent(s3, GiveBack(1), []);
    OneEvent(s2, GiveBack(0), [GiveBack(1)] + []);
    OneEvent(s1, second, [GiveBack(0)] + ([GiveBack(1)] + []));
    OneEvent(STARTED, first, [second] + ([GiveBack(0)] + ([GiveBack(1)] + [])));
  }

  /** When every moment is a standing press's, a press is the same again if and
      only if one that stands was made less than the dwell before it, or later. */
  lemma DroppedIffOneStandsNear(s: System, name: string, at: Moment)
    requires DwellingSound(s) && !Asks(name) && AllStand(s, name)
    ensures Dwells(s.memory, name, at) <==>
              exists id: nat :: id < |s.taken| && !s.taken[id].given && s.taken[id].name == name
                                && at < s.taken[id].at + PRESS_DWELL
  {
    assert StackSound(s, name);
    var stack := Stack(s, name);
    if |stack| > 0 {
      assert HasOwner(s, name, |stack| - 1);
      var owner: nat :| IsOwner(s, owner, name, |stack| - 1);
      assert PlaceSound(s, s.taken[owner]);
    }
    forall id: nat | id < |s.taken| && !s.taken[id].given && s.taken[id].name == name
      ensures |stack| > 0 && s.taken[id].at <= stack[|stack| - 1]
    {
      assert PlaceSound(s, s.taken[id]);
      NoneAboveTheTop(stack, s.taken[id].level);
    }
  }
}

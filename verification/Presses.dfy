/** The deck's presses that ask and the ones that dwell: one arm at a time, and
    the moment each key last acted. */
module Presses {
  import opened Common

  const PRESS_DWELL: nat := 350 * NANOS_IN_A_MILLISECOND
  const ASK_WINDOW: nat := 3_000 * NANOS_IN_A_MILLISECOND

  datatype AskingKey = AllOff | DeleteScene

  /** What an armed key is about: a scene, or the rig or its preview. */
  datatype AskTarget = Scene(id: string) | Previewing(on: bool)

  datatype Ask = Act | Armed | Kept

  datatype Arm = Arm(key: AskingKey, at: Moment, target: AskTarget)

  datatype Memory = Memory(arm: Option<Arm>, acted: map<string, Moment>)

  const NOTHING := Memory(None, map[])

  function FromAction(action: string): Option<AskingKey> {
    if action == "allOff" then Some(AllOff) else if action == "deleteScene" then Some(DeleteScene) else None
  }

  function Action(key: AskingKey): string {
    match key
    case AllOff => "allOff"
    case DeleteScene => "deleteScene"
  }

  function Text(key: AskingKey, armed: bool): string {
    match key
    case AllOff => if armed then "OFF?" else "ALL OFF"
    case DeleteScene => if armed then "DEL?" else "Del\\nScene"
  }

  predicate Within(since: Moment, at: Moment, span: nat) { Since(since, at) < span }

  /** The key acted less than the dwell ago. */
  predicate Dwells(m: Memory, name: string, at: Moment) { name in m.acted && Within(m.acted[name], at, PRESS_DWELL) }

  /** The key's own arm, still running. */
  predicate ArmRuns(m: Memory, key: AskingKey, at: Moment) {
    m.arm.Some? && m.arm.value.key == key && Since(m.arm.value.at, at) <= ASK_WINDOW
  }

  function AskedOf(m: Memory, key: AskingKey, target: AskTarget, at: Moment): (Memory, Ask) {
    if Dwells(m, Action(key), at) then (m, Kept)
    else if !ArmRuns(m, key, at) then (m.(arm := Some(Arm(key, at, target))), Armed)
    else if m.arm.value.target != target then (m.(arm := None), Kept)
    else if Within(m.arm.value.at, at, PRESS_DWELL) then (m, Kept)
    else (m, Act)
  }

  function WithoutArm(m: Memory): Memory { m.(arm := None) }

  function KeyActed(m: Memory, key: AskingKey, at: Moment): Memory { Memory(None, m.acted[Action(key) := at]) }

  function KeyText(m: Memory, key: AskingKey, at: Moment): string { Text(key, ArmRuns(m, key, at)) }

  /** A key of the LIGHTS page: what it is about, unless that is refused; and
      whether its act would succeed. */
  datatype LightsPress = LightsPress(action: string, target: Option<AskTarget>, at: Moment, succeeds: bool)

  datatype LightsAnswer = Handled | Refused | DidArm | DidKeep | Acted | ActFailed

  function LightsPressed(m: Memory, press: LightsPress): (Memory, LightsAnswer) {
    var key := FromAction(press.action);
    if key.None? then (WithoutArm(m), if press.succeeds then Handled else ActFailed)
    else if press.target.None? then (WithoutArm(m), Refused)
    else
      var (asked, ask) := AskedOf(m, key.value, press.target.value, press.at);
      match ask
      case Armed => (asked, DidArm)
      case Kept => (asked, DidKeep)
      case Act => if press.succeeds then (KeyActed(asked, key.value, press.at), Acted)
                  else (WithoutArm(asked), ActFailed)
  }

  // ----- Dwelling keys

  const LIGHT_ROUTE := "/api/deck/light-action"
  const AUDIO_ROUTE := "/api/deck/audio-action"
  const PROMPTER_ROUTE := "/api/deck/prompter-action"

  /** The name a dwelling key goes by. */
  function DwellingPress(path: string, action: string, value: Option<string>): Option<string> {
    if || (path == LIGHT_ROUTE && action == "toggleLight")
       || (path == AUDIO_ROUTE && action == "dimToggle")
       || (path == PROMPTER_ROUTE && action == "playPause")
    then Some(path + " " + action)
    else if path == AUDIO_ROUTE && action == "dialPress"
    then Some(path + " " + action + " " + if value.Some? then value.value else "")
    else if path == AUDIO_ROUTE && action == "setMixTarget" && value == Some("phones")
    then Some(path + " " + action + " phones")
    else None
  }

  /** What a press that is taken leaves, and what stood before it; a press that
      is the same again takes nothing. */
  function TakenPress(m: Memory, name: string, at: Moment): (Memory, Option<Option<Moment>>) {
    if Dwells(m, name, at) then (m, None)
    else (m.(acted := m.acted[name := at]), Some(if name in m.acted then Some(m.acted[name]) else None))
  }

  function ReleasedPress(m: Memory, name: string, before: Option<Moment>, at: Moment): Memory {
    if !(name in m.acted && m.acted[name] == at) then m
    else match before
      case Some(moment) => m.(acted := m.acted[name := moment])
      case None => m.(acted := m.acted - {name})
  }

  /** The keys that ask: `All Off` and `Del Scene`, by those actions and no other. */
  lemma AsksIff(action: string)
    ensures FromAction(action) == Some(AllOff) <==> action == "allOff"
    ensures FromAction(action) == Some(DeleteScene) <==> action == "deleteScene"
    ensures FromAction(action).Some? ==> Action(FromAction(action).value) == action
  {
  }

  /** A press arms if and only if the key shows its name and did not act less than the
      dwell ago; then the key asks, and nothing else has changed. */
  lemma APressArmsIff(m: Memory, key: AskingKey, target: AskTarget, at: Moment)
    ensures var (after, ask) := AskedOf(m, key, target, at);
            && (ask.Armed?
                <==> && KeyText(m, key, at) == Text(key, false)
                     && (Action(key) in m.acted ==> m.acted[Action(key)] + PRESS_DWELL <= at))
            && (ask.Armed? ==>
                  && after == m.(arm := Some(Arm(key, at, target)))
                  && KeyText(after, key, at) == Text(key, true) != Text(key, false))
  {
  }

  /** The keys that dwell: the light's toggle, `DIM`, the prompter's play, each strip's
      dial, and `PHONES` of the keys that choose a mix; no other. */
  lemma DwellsIff(path: string, action: string, value: Option<string>)
    ensures DwellingPress(path, action, value).Some?
            <==> || (path == "/api/deck/light-action" && action == "toggleLight")
                 || (path == "/api/deck/audio-action" && action in {"dimToggle", "dialPress"})
                 || (path == "/api/deck/audio-action" && action == "setMixTarget" && value == Some("phones"))
                 || (path == "/api/deck/prompter-action" && action == "playPause")
  {
  }

  /** A key shows its question while its own arm runs, three seconds from the press
      that armed it, and its name in every other case. */
  lemma ShowsItsNameIff(m: Memory, key: AskingKey, at: Moment)
    ensures var runs := m.arm.Some? && m.arm.value.key == key && Since(m.arm.value.at, at) <= 3_000_000_000;
            && (key.AllOff? ==> KeyText(m, key, at) == if runs then "OFF?" else "ALL OFF")
            && (key.DeleteScene? ==> KeyText(m, key, at) == if runs then "DEL?" else "Del\\nScene")
  {
  }

  /** What comes after a key's route and action in its name. */
  function Suffix(action: string, value: Option<string>): string {
    if action == "dialPress" then " " + (if value.Some? then value.value else "")
    else if action == "setMixTarget" then " phones"
    else ""
  }

  lemma NameInParts(path: string, action: string, value: Option<string>)
    requires DwellingPress(path, action, value).Some?
    ensures DwellingPress(path, action, value).value == path + (" " + (action + Suffix(action, value)))
    ensures path == LIGHT_ROUTE || path == AUDIO_ROUTE || path == PROMPTER_ROUTE
    ensures |action| > 1 && match action[0]
                            case 't' => action == "toggleLight" && path == LIGHT_ROUTE
                            case 'p' => action == "playPause" && path == PROMPTER_ROUTE
                            case 's' => action == "setMixTarget" && path == AUDIO_ROUTE
                            case _ => action[0] == 'd' && path == AUDIO_ROUTE
                                      && (if action[2] == 'm' then action == "dimToggle" else action == "dialPress")
  {
    var name := DwellingPress(path, action, value).value;
    assert name == path + (" " + (action + Suffix(action, value)));
  }

  lemma RoutesAreApart(path: string, other: string, rest: string, others: string)
    requires path == LIGHT_ROUTE || path == AUDIO_ROUTE || path == PROMPTER_ROUTE
    requires other == LIGHT_ROUTE || other == AUDIO_ROUTE || other == PROMPTER_ROUTE
    requires path + rest == other + others
    ensures path == other && rest == others
  {
    assert (path + rest)[10] == path[10] && (other + others)[10] == other[10];
    assert (path + rest)[|path|..] == rest;
    assert (other + others)[|path|..] == others;
  }

  /** Two presses go by one name only if they are the same key: the same strip,
      for a dial's push. No asking key goes by a dwelling key's name. */
  lemma NamesAreApart(path: string, action: string, value: Option<string>,
                      path': string, action': string, value': Option<string>, key: AskingKey)
    requires DwellingPress(path, action, value).Some?
    ensures DwellingPress(path, action, value).value != Action(key)
    ensures DwellingPress(path', action', value') == DwellingPress(path, action, value) ==>
              path' == path && action' == action && Suffix(action', value') == Suffix(action, value)
  {
    var name := DwellingPress(path, action, value).value;
    NameInParts(path, action, value);
    assert name[0] == path[0] && Action(key)[0] != path[0];
    if DwellingPress(path', action', value') == Some(name) {
      NameInParts(path', action', value');
      RoutesAreApart(path, path', " " + (action + Suffix(action, value)), " " + (action' + Suffix(action', value')));
      var rest, rest' := action + Suffix(action, value), action' + Suffix(action', value');
      assert (" " + rest)[1..] == rest && (" " + rest')[1..] == rest';
      assert rest[0] == action[0] && rest'[0] == action'[0];
      if action[0] == 'd' {
        assert rest[2] == action[2] && rest'[2] == action'[2];
      }
      assert action == action';
      assert rest[|action|..] == Suffix(action, value) && rest'[|action|..] == Suffix(action', value');
    }
  }

  // ----- The code

  /** The presses of one saved data. */
  class PressMemory {
    var arm: Option<Arm>
    var acted: map<string, Moment>

    function State(): Memory
      reads this
    {
      Memory(arm, acted)
    }

    constructor ()
      ensures State() == NOTHING
    {
      arm, acted := None, map[];
    }

    method AskKey(key: AskingKey, target: AskTarget, at: Moment) returns (ask: Ask)
      modifies this
      ensures (State(), ask) == AskedOf(old(State()), key, target, at)
    {
      var name := Action(key);
      if name in acted && Within(acted[name], at, PRESS_DWELL) {
        return Kept;
      }
      if arm.Some? && arm.value.key == key {
        if Since(arm.value.at, at) <= ASK_WINDOW {
          if arm.value.target != target {
            arm := None;
            return Kept;
          }
          if Within(arm.value.at, at, PRESS_DWELL) {
            return Kept;
          }
          return Act;
        }
      }
      arm := Some(Arm(key, at, target));
      return Armed;
    }

    method AskedKeyActed(key: AskingKey, at: Moment)
      modifies this
      ensures State() == KeyActed(old(State()), key, at)
    {
      arm := None;
      acted := acted[Action(key) := at];
    }

    method EndArm()
      modifies this
      ensures State() == WithoutArm(old(State()))
    {
      arm := None;
    }

    method AskingKeyText(key: AskingKey, at: Moment) returns (text: string)
      ensures text == KeyText(State(), key, at)
    {
      var armed := arm.Some? && arm.value.key == key && Since(arm.value.at, at) <= ASK_WINDOW;
      text := Text(key, armed);
    }

    method TakeDwellingPress(name: string, at: Moment) returns (taken: Option<Option<Moment>>)
      modifies this
      ensures (State(), taken) == TakenPress(old(State()), name, at)
    {
      var before := if name in acted then Some(acted[name]) else None;
      if before.Some? && Within(before.value, at, PRESS_DWELL) {
        return None;
      }
      acted := acted[name := at];
      return Some(before);
    }

    method ReleaseDwellingPress(name: string, before: Option<Moment>, at: Moment)
      modifies this
      ensures State() == ReleasedPress(old(State()), name, before, at)
    {
      if !(name in acted && acted[name] == at) {
        return;
      }
      match before
      case Some(moment) => acted := acted[name := moment];
      case None => acted := acted - {name};
    }

    method AskedLightAction(press: LightsPress) returns (answer: LightsAnswer)
      modifies this
      ensures (State(), answer) == LightsPressed(old(State()), press)
    {
      var key := FromAction(press.action);
      if key.None? {
        EndArm();
        return if press.succeeds then Handled else ActFailed;
      }
      if press.target.None? {
        EndArm();
        return Refused;
      }
      var ask := AskKey(key.value, press.target.value, press.at);
      match ask
      case Armed => return DidArm;
      case Kept => return DidKeep;
      case Act =>
        if press.succeeds {
          AskedKeyActed(key.value, press.at);
          return Acted;
        }
        EndArm();
        return ActFailed;
    }

    /** A key's press: taken unless it is the same press again, and given back
        when its act fails. A key of the LIGHTS page acts through this memory;
        what the others act on is not part of it. */
    method DeckKey(path: string, value: Option<string>, press: LightsPress) returns (answer: LightsAnswer)
      modifies this
      ensures var name := DwellingPress(path, press.action, value);
              (State(), answer) == DeckPressed(old(State()), name, path == LIGHT_ROUTE, press)
    {
      var name := DwellingPress(path, press.action, value);
      var before: Option<Moment> := None;
      if name.Some? {
        var taken := TakeDwellingPress(name.value, press.at);
        if taken.None? {
          return DidKeep;
        }
        before := taken.value;
      }
      if path == LIGHT_ROUTE {
        answer := AskedLightAction(press);
      } else {
        answer := if press.succeeds then Handled else ActFailed;
      }
      if name.Some? && (answer.Refused? || answer.ActFailed?) {
        ReleaseDwellingPress(name.value, before, press.at);
      }
    }
  }

  function DeckPressed(m: Memory, name: Option<string>, lights: bool, press: LightsPress): (Memory, LightsAnswer) {
    var (taken, before) := if name.Some? then TakenPress(m, name.value, press.at) else (m, Some(None));
    if before.None? then (taken, DidKeep)
    else
      var (done, answer) :=
        if lights then LightsPressed(taken, press)
        else (taken, if press.succeeds then Handled else ActFailed);
      (if name.Some? && (answer.Refused? || answer.ActFailed?)
       then ReleasedPress(done, name.value, before.value, press.at) else done, answer)
  }
}

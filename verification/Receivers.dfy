/** The receivers of vMix's outputs: the thread that keeps them makes, stops and
    drops them, each of them runs on a thread of its own, and only flags and the
    cameras' registrations are shared. */
module Receivers {
  import opened Common

  /** A receiver, by the count of receivers made up to it. */
  type Id = nat

  const CAMERAS: nat := 3
  const RETRY_WAIT: nat := 2_000_000_000

  datatype Announced = Announced(name: string, url: string)

  datatype Receiving = Receiving(source: Announced, id: Id)

  /** What comes after the last colon, if there is one. */
  function Port(url: string): (port: Option<string>)
    ensures port.None? <==> ':' !in url
    ensures port.Some? ==> ':' !in port.value && exists host :: url == host + ":" + port.value
  {
    if |url| == 0 then None
    else
      var front, last := url[..|url| - 1], url[|url| - 1];
      assert url == front + [last];
      if last == ':' then
        assert url == front + ":" + "";
        Some("")
      else
        match Port(front)
        case None => None
        case Some(port) =>
          assert forall host | front == host + ":" + port :: url == host + ":" + (port + [last]);
          Some(port + [last])
  }

  predicate SameSource(had: Announced, now: Announced) { had.name == now.name && Port(had.url) == Port(now.url) }

  // ----- The keeping thread

  /** `told` are the receivers whose stop flag is set. */
  datatype Main = Main(
    receivers: seq<Option<Receiving>>,
    ending: seq<Id>,
    told: set<Id>,
    asked: seq<Option<Moment>>,
    retryAt: seq<Option<Moment>>,
    made: nat)

  predicate Fits(m: Main) { |m.receivers| == |m.asked| == |m.retryAt| == CAMERAS }

  /** What a keep reads of a camera: what NDI lists, whether its receiver's
      ended flag is set, and whether a new thread starts, or when it could not. */
  datatype Reading = Reading(listed: Option<Announced>, ended: bool, starts: bool, at: Moment)

  function Reaped(ending: seq<Id>, ended: set<Id>): seq<Id> {
    if |ending| == 0 then []
    else Reaped(ending[..|ending| - 1], ended)
         + (if ending[|ending| - 1] in ended then [] else [ending[|ending| - 1]])
  }

  function Dropped(m: Main, c: nat, now: Moment): Main
    requires Fits(m) && c < CAMERAS
  {
    m.(receivers := m.receivers[c := None], retryAt := m.retryAt[c := Some(now + RETRY_WAIT)])
  }

  function Stopped(m: Main, c: nat): Main
    requires Fits(m) && c < CAMERAS && m.receivers[c].Some?
  {
    var id := m.receivers[c].value.id;
    m.(receivers := m.receivers[c := None], told := m.told + {id}, ending := m.ending + [id])
  }

  function Asked(m: Main, c: nat, wanted: bool, now: Moment): Main
    requires Fits(m) && c < CAMERAS
  {
    m.(asked := m.asked[c := if !wanted then None else if m.asked[c].Some? then m.asked[c] else Some(now)])
  }

  function Connected(m: Main, c: nat, source: Announced, starts: bool, at: Moment): Main
    requires Fits(m) && c < CAMERAS
  {
    m.(made := m.made + 1,
       receivers := m.receivers[c := if starts then Some(Receiving(source, m.made + 1)) else None],
       retryAt := m.retryAt[c := if starts then None else Some(at + RETRY_WAIT)])
  }

  /** Whether the receiver a camera has is to be stopped. */
  predicate Unwanted(receiver: Option<Receiving>, listed: Option<Announced>, showing: bool) {
    receiver.Some? && !(showing && (listed.Some? ==> SameSource(receiver.value.source, listed.value)))
  }

  /** One move of the keeping thread. */
  datatype Move =
    | Drop(c: nat, now: Moment)
    | Stop(c: nat)
    | Ask(c: nat, wanted: bool, now: Moment)
    | Connect(c: nat, source: Announced, starts: bool, at: Moment)

  predicate CanMove(m: Main, move: Move) {
    && Fits(m) && move.c < CAMERAS
    && (move.Drop? || move.Stop? ==> m.receivers[move.c].Some?)
    && (move.Connect? ==> m.receivers[move.c].None?)
  }

  function Moved(m: Main, move: Move): Main
    requires CanMove(m, move)
  {
    match move
    case Drop(c, now) => Dropped(m, c, now)
    case Stop(c) => Stopped(m, c)
    case Ask(c, wanted, now) => Asked(m, c, wanted, now)
    case Connect(c, source, starts, at) => Connected(m, c, source, starts, at)
  }

  function DroppedIfEnded(m: Main, c: nat, now: Moment, reading: Reading): (k: Main)
    requires Fits(m) && c < CAMERAS
    ensures Fits(k)
  {
    if m.receivers[c].Some? && reading.ended then Moved(m, Drop(c, now)) else m
  }

  function StoppedIfUnwanted(m: Main, c: nat, showing: bool, reading: Reading): (k: Main)
    requires Fits(m) && c < CAMERAS
    ensures Fits(k)
  {
    if Unwanted(m.receivers[c], reading.listed, showing) then Moved(m, Stop(c)) else m
  }

  predicate Due(m: Main, c: nat, showing: bool, now: Moment, reading: Reading)
    requires Fits(m) && c < CAMERAS
  {
    && showing && m.receivers[c].None? && reading.listed.Some?
    && (m.retryAt[c].Some? ==> now >= m.retryAt[c].value)
  }

  function ConnectedIfDue(m: Main, c: nat, showing: bool, now: Moment, reading: Reading): (k: Main)
    requires Fits(m) && c < CAMERAS
    ensures Fits(k)
  {
    if Due(m, c, showing, now, reading)
    then Moved(m, Connect(c, reading.listed.value, reading.starts, reading.at))
    else m
  }

  /** What a keep makes of one camera, one move after another. */
  function KeptCamera(m: Main, c: nat, showing: bool, now: Moment, reading: Reading): (k: Main)
    requires Fits(m) && c < CAMERAS
    ensures Fits(k)
  {
    var stopped := StoppedIfUnwanted(DroppedIfEnded(m, c, now, reading), c, showing, reading);
    ConnectedIfDue(Moved(stopped, Ask(c, showing && reading.listed.Some?, now)), c, showing, now, reading)
  }

  function KeptFirst(m: Main, n: nat, showing: bool, now: Moment, readings: seq<Reading>): (kept: Main)
    requires Fits(m) && n <= CAMERAS == |readings|
    ensures Fits(kept)
  {
    if n == 0 then m
    else KeptCamera(KeptFirst(m, n - 1, showing, now, readings), n - 1, showing, now, readings[n - 1])
  }

  function Kept(m: Main, showing: bool, now: Moment, ended: set<Id>, readings: seq<Reading>): Main
    requires Fits(m) && |readings| == CAMERAS
  {
    KeptFirst(m.(ending := Reaped(m.ending, ended)), CAMERAS, showing, now, readings)
  }

  lemma {:induction false} ReapedHolds(ending: seq<Id>, ended: set<Id>, id: Id)
    ensures id in Reaped(ending, ended) <==> id in ending && id !in ended
  {
    if |ending| > 0 {
      ReapedHolds(ending[..|ending| - 1], ended, id);
      assert ending == ending[..|ending| - 1] + [ending[|ending| - 1]];
    }
  }

  /** A keep of one camera leaves the others as they were, and forgets nobody
      who is told to stop. */
  lemma KeptCameraLeavesTheRest(m: Main, c: nat, showing: bool, now: Moment, reading: Reading)
    requires Fits(m) && c < CAMERAS
    ensures var k := KeptCamera(m, c, showing, now, reading);
            && m.made <= k.made && m.told <= k.told && m.ending <= k.ending
            && forall d | 0 <= d < CAMERAS && d != c :: k.receivers[d] == m.receivers[d]
                                                        && k.retryAt[d] == m.retryAt[d] && k.asked[d] == m.asked[d]
  {
  }

  lemma {:induction false} KeptFirstLeavesTheRest(m: Main, n: nat, showing: bool, now: Moment, readings: seq<Reading>)
    requires Fits(m) && n <= CAMERAS == |readings|
    ensures var k := KeptFirst(m, n, showing, now, readings);
            && m.made <= k.made
            && forall c | n <= c < CAMERAS :: k.receivers[c] == m.receivers[c] && k.retryAt[c] == m.retryAt[c]
                                              && k.asked[c] == m.asked[c]
  {
    if n > 0 {
      KeptFirstLeavesTheRest(m, n - 1, showing, now, readings);
      KeptCameraLeavesTheRest(KeptFirst(m, n - 1, showing, now, readings), n - 1, showing, now, readings[n - 1]);
    }
  }

  lemma {:induction false} KeptLater(m: Main, c: nat, n: nat, showing: bool, now: Moment, readings: seq<Reading>)
    requires Fits(m) && c < n <= CAMERAS == |readings|
    ensures var k, l := KeptFirst(m, c + 1, showing, now, readings), KeptFirst(m, n, showing, now, readings);
            && l.receivers[c] == k.receivers[c] && l.retryAt[c] == k.retryAt[c] && l.asked[c] == k.asked[c]
            && k.told <= l.told && k.ending <= l.ending
  {
    if c + 1 < n {
      KeptLater(m, c, n - 1, showing, now, readings);
      KeptCameraLeavesTheRest(KeptFirst(m, n - 1, showing, now, readings), n - 1, showing, now, readings[n - 1]);
    }
  }

  /** What a keep makes of one camera's receiver. */
  lemma KeptCameraMeans(m: Main, c: nat, showing: bool, now: Moment, reading: Reading)
    requires Fits(m) && c < CAMERAS
    ensures var k := KeptCamera(m, c, showing, now, reading);
            var had, has, listed := m.receivers[c], k.receivers[c], reading.listed;
            && (has.Some? ==>
                  && showing
                  && (listed.Some? ==>
                        && has.value.source.name == listed.value.name
                        && Port(has.value.source.url) == Port(listed.value.url))
                  && ((has == had && !reading.ended) || has.value.id > m.made))
            && (has.None? && showing && listed.Some? ==> k.retryAt[c].Some?)
            && (had.Some? && has != had ==> reading.ended || (had.value.id in k.told && had.value.id in k.ending))
  {
  }

  /** After a keep, a camera has a receiver only while the pictures show, and
      only one that serves what is listed: the one it had, not known to have
      ended, or a new one. Without one, it waits to try again, or nothing is
      listed. A receiver that has gone had ended, or has been told to stop. */
  lemma KeepMeans(m: Main, c: nat, showing: bool, now: Moment, ended: set<Id>, readings: seq<Reading>)
    requires Fits(m) && c < CAMERAS == |readings|
    ensures var k := Kept(m, showing, now, ended, readings);
            var had, has, listed := m.receivers[c], k.receivers[c], readings[c].listed;
            && (has.Some? ==>
                  && showing
                  && (listed.Some? ==>
                        && has.value.source.name == listed.value.name
                        && Port(has.value.source.url) == Port(listed.value.url))
                  && ((has == had && !readings[c].ended) || has.value.id > m.made))
            && (has.None? && showing && listed.Some? ==> k.retryAt[c].Some?)
            && (had.Some? && has != had ==> readings[c].ended || (had.value.id in k.told && had.value.id in k.ending))
  {
    var first := m.(ending := Reaped(m.ending, ended));
    KeptFirstLeavesTheRest(first, c, showing, now, readings);
    KeptLater(first, c, CAMERAS, showing, now, readings);
    KeptCameraMeans(KeptFirst(first, c, showing, now, readings), c, showing, now, readings[c]);
  }

  /** When a keep connects: a camera that has no receiver, or loses an unwanted
      one, gets a new one if and only if the pictures show, its output is listed,
      the pause after a failure is over and the thread starts; one whose receiver
      ended by itself waits the pause from now, and one that fails to start from
      then. */
  lemma KeepConnectsIff(m: Main, c: nat, showing: bool, now: Moment, ended: set<Id>, readings: seq<Reading>)
    requires Fits(m) && c < CAMERAS == |readings|
    ensures var k := Kept(m, showing, now, ended, readings);
            var had, has, reading := m.receivers[c], k.receivers[c], readings[c];
            var paused := m.retryAt[c].Some? && now < m.retryAt[c].value;
            var wanted := showing && reading.listed.Some?;
            if had.Some? && reading.ended then has.None? && k.retryAt[c] == Some(now + RETRY_WAIT)
            else if && had.Some? && showing
                    && (reading.listed.Some? ==>
                          && had.value.source.name == reading.listed.value.name
                          && Port(had.value.source.url) == Port(reading.listed.value.url))
            then has == had
            else
              && (has.Some? <==> wanted && !paused && reading.starts)
              && (has.Some? ==> has.value.source == reading.listed.value && has.value.id > m.made)
              && (has.None? && wanted && !paused ==> k.retryAt[c] == Some(reading.at + RETRY_WAIT))
              && (!wanted || paused ==> k.retryAt[c] == m.retryAt[c])
  {
    var first := m.(ending := Reaped(m.ending, ended));
    KeptFirstLeavesTheRest(first, c, showing, now, readings);
    KeptLater(first, c, CAMERAS, showing, now, readings);
    KeptCameraConnects(KeptFirst(first, c, showing, now, readings), c, showing, now, readings[c]);
  }

  lemma KeptCameraConnects(m: Main, c: nat, showing: bool, now: Moment, reading: Reading)
    requires Fits(m) && c < CAMERAS
    ensures var k := KeptCamera(m, c, showing, now, reading);
            var had, has := m.receivers[c], k.receivers[c];
            var paused := m.retryAt[c].Some? && now < m.retryAt[c].value;
            var wanted := showing && reading.listed.Some?;
            if had.Some? && reading.ended then has.None? && k.retryAt[c] == Some(now + RETRY_WAIT)
            else if && had.Some? && showing
                    && (reading.listed.Some? ==>
                          && had.value.source.name == reading.listed.value.name
                          && Port(had.value.source.url) == Port(reading.listed.value.url))
            then has == had
            else
              && (has.Some? <==> wanted && !paused && reading.starts)
              && (has.Some? ==> has.value.source == reading.listed.value && has.value.id > m.made)
              && (has.None? && wanted && !paused ==> k.retryAt[c] == Some(reading.at + RETRY_WAIT))
              && (!wanted || paused ==> k.retryAt[c] == m.retryAt[c])
  {
  }

  /** Since when a camera is asked for: the first of the keeps in a row, up to this one,
      at which the pictures showed and its output was listed. */
  lemma KeepAsksSince(m: Main, c: nat, showing: bool, now: Moment, ended: set<Id>, readings: seq<Reading>)
    requires Fits(m) && c < CAMERAS == |readings|
    ensures var k := Kept(m, showing, now, ended, readings);
            && (k.asked[c].Some? <==> showing && readings[c].listed.Some?)
            && (k.asked[c].Some? ==> k.asked[c] == if m.asked[c].Some? then m.asked[c] else Some(now))
  {
    var first := m.(ending := Reaped(m.ending, ended));
    KeptFirstLeavesTheRest(first, c, showing, now, readings);
    KeptLater(first, c, CAMERAS, showing, now, readings);
    KeptCameraAsks(KeptFirst(first, c, showing, now, readings), c, showing, now, readings[c]);
  }

  lemma KeptCameraAsks(m: Main, c: nat, showing: bool, now: Moment, reading: Reading)
    requires Fits(m) && c < CAMERAS
    ensures KeptCamera(m, c, showing, now, reading).asked[c]
            == if !(showing && reading.listed.Some?) then None
               else if m.asked[c].Some? then m.asked[c] else Some(now)
  {
  }

  /** What one check of the helper's end reads: whether the search has ended,
      which receivers, and whether the time is up after it. */
  datatype Look = Look(search: bool, ended: set<Id>, late: bool)

  predicate AllEnded(ending: seq<Id>, look: Look) {
    look.search && forall i | 0 <= i < |ending| :: ending[i] in look.ended
  }

  class Vmix {
    var receivers: array<Option<Receiving>>
    var ending: seq<Id>
    var told: set<Id>
    var asked: array<Option<Moment>>
    var retryAt: array<Option<Moment>>
    var made: nat
    var stopSearch: bool

    ghost predicate Valid()
      reads this
    {
      receivers.Length == asked.Length == retryAt.Length == CAMERAS && asked != retryAt
    }

    ghost function State(): (m: Main)
      requires Valid()
      reads this, receivers, asked, retryAt
      ensures Fits(m)
    {
      Main(receivers[..], ending, told, asked[..], retryAt[..], made)
    }

    constructor ()
      ensures Valid() && fresh(receivers) && fresh(asked) && fresh(retryAt)
      ensures State() == Main([None, None, None], [], {}, [None, None, None], [None, None, None], 0)
      ensures !stopSearch
    {
      receivers := new Option<Receiving>[CAMERAS](_ => None);
      asked := new Option<Moment>[CAMERAS](_ => None);
      retryAt := new Option<Moment>[CAMERAS](_ => None);
      ending, told, made, stopSearch := [], {}, 0, false;
    }

    method Retain(ended: set<Id>)
      requires Valid()
      modifies this`ending
      ensures ending == Reaped(old(ending), ended)
    {
      var kept: seq<Id> := [];
      for i := 0 to |ending|
        invariant kept == Reaped(ending[..i], ended)
        invariant ending == old(ending)
      {
        assert ending[..i + 1][..i] == ending[..i];
        if ending[i] !in ended {
          kept := kept + [ending[i]];
        }
      }
      assert ending[..|ending|] == ending;
      ending := kept;
    }

    method Connect(c: nat, source: Announced, starts: bool, at: Moment) returns (receiver: Option<Receiving>)
      requires Valid() && c < CAMERAS && retryAt[c] == None
      modifies this`made, retryAt
      ensures made == old(made) + 1
      ensures receiver == if starts then Some(Receiving(source, made)) else None
      ensures retryAt[..] == if starts then old(retryAt[..]) else old(retryAt[..])[c := Some(at + RETRY_WAIT)]
    {
      made := made + 1;
      if starts {
        receiver := Some(Receiving(source, made));
      } else {
        retryAt[c] := Some(at + RETRY_WAIT);
        receiver := None;
      }
    }

    method DropIfEnded(c: nat, now: Moment, reading: Reading)
      requires Valid() && c < CAMERAS
      modifies receivers, retryAt
      ensures State() == DroppedIfEnded(old(State()), c, now, reading)
    {
      if receivers[c].Some? && reading.ended {
        receivers[c], retryAt[c] := None, Some(now + RETRY_WAIT);
        assert State() == Dropped(old(State()), c, now);
      }
    }

    method StopIfUnwanted(c: nat, showing: bool, reading: Reading)
      requires Valid() && c < CAMERAS
      modifies this`ending, this`told, receivers
      ensures State() == StoppedIfUnwanted(old(State()), c, showing, reading)
    {
      if Unwanted(receivers[c], reading.listed, showing) {
        var id := receivers[c].value.id;
        receivers[c] := None;
        told, ending := told + {id}, ending + [id];
        assert State() == Stopped(old(State()), c);
      }
    }

    method ConnectIfDue(c: nat, showing: bool, now: Moment, reading: Reading)
      requires Valid() && c < CAMERAS
      modifies this`made, receivers, retryAt
      ensures State() == ConnectedIfDue(old(State()), c, showing, now, reading)
    {
      if && showing && receivers[c].None? && reading.listed.Some?
         && (retryAt[c].Some? ==> now >= retryAt[c].value) {
        retryAt[c] := None;
        var receiver := Connect(c, reading.listed.value, reading.starts, reading.at);
        receivers[c] := receiver;
        assert State() == Connected(old(State()), c, reading.listed.value, reading.starts, reading.at);
      }
    }

    method KeepCamera(c: nat, showing: bool, now: Moment, reading: Reading)
      requires Valid() && c < CAMERAS
      modifies this`ending, this`told, this`made, receivers, asked, retryAt
      ensures State() == KeptCamera(old(State()), c, showing, now, reading)
    {
      DropIfEnded(c, now, reading);
      StopIfUnwanted(c, showing, reading);
      ghost var stopped := State();
      var wanted := showing && reading.listed.Some?;
      asked[c] := if !wanted then None else if asked[c].Some? then asked[c] else Some(now);
      assert State() == Asked(stopped, c, wanted, now);
      ConnectIfDue(c, showing, now, reading);
    }

    method Keep(showing: bool, now: Moment, ended: set<Id>, readings: seq<Reading>)
      requires Valid() && |readings| == CAMERAS
      modifies this`ending, this`told, this`made, receivers, asked, retryAt
      ensures State() == Kept(old(State()), showing, now, ended, readings)
    {
      ghost var was := State();
      Retain(ended);
      ghost var reaped := State();
      assert reaped == was.(ending := Reaped(was.ending, ended));
      for c := 0 to CAMERAS
        invariant State() == KeptFirst(reaped, c, showing, now, readings)
      {
        KeepCamera(c, showing, now, readings[c]);
      }
    }

    /** `looks` is what each check while it waits reads, `last` the one that
        decides the complaint; it waited after each of the first `waits`. */
    method Finish(now: Moment, ended: set<Id>, readings: seq<Reading>, looks: seq<Look>, last: Look)
      returns (waits: nat, complains: bool)
      requires Valid() && |readings| == CAMERAS
      modifies this`ending, this`told, this`made, this`stopSearch, receivers, asked, retryAt
      ensures State() == Kept(old(State()), false, now, ended, readings) && stopSearch
      ensures forall c | 0 <= c < CAMERAS :: receivers[c] == None
      ensures waits <= |looks| && forall i | 0 <= i < waits :: !AllEnded(ending, looks[i]) && !looks[i].late
      ensures waits < |looks| ==> AllEnded(ending, looks[waits]) || looks[waits].late
      ensures !complains <==> AllEnded(ending, last)
    {
      Keep(false, now, ended, readings);
      forall c | 0 <= c < CAMERAS
        ensures receivers[c] == None
      {
        KeepMeans(old(State()), c, false, now, ended, readings);
      }
      stopSearch := true;
      waits := 0;
      while waits < |looks| && !AllEnded(ending, looks[waits]) && !looks[waits].late
        invariant waits <= |looks| && forall i | 0 <= i < waits :: !AllEnded(ending, looks[i]) && !looks[i].late
      {
        waits := waits + 1;
      }
      complains := !AllEnded(ending, last);
    }
  }
}

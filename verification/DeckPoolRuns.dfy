/** The queue with its workers, the threads that offer to it and its end: every
    interleaving of sections under the lock, notifications and wake-ups. */
module DeckPoolRuns {
  import opened Common
  import opened DeckPool

  /** `Awake`: about to take the lock. `Woken`: notified, and the lock not taken
      again yet. `Notifying`: it has parked a read and has not said so yet. */
  datatype Worker =
    | Awake
    | Reading(c: Connection)
    | Answering(c: Connection)
    | Notifying
    | Asleep
    | Woken
    | Stopped

  /** `telling`: threads that have queued a connection and not said so yet;
      `tellingAll`: the acceptor has closed the queue and not said so yet. What
      follows is history: `late` counts the connections queued after the close. */
  datatype System = System(
    lines: Lines,
    workers: seq<Worker>,
    telling: nat,
    tellingAll: bool,
    clock: Moment,
    offered: seq<Arrival>,
    taken: seq<Arrival>,
    parked: seq<Read>,
    answered: seq<Read>,
    finished: seq<Connection>,
    late: nat)

  datatype Step =
    | Offer(arrival: Arrival, press: bool)
    | NotifyOne(sleeper: nat)
    | Close
    | NotifyAll
    | Pass(w: nat)
    | Finish(w: nat)
    | Park(w: nat)
    | SayParked(w: nat, sleeper: nat)
    | WakeByItself(w: nat)
    | Tick(time: nat)

  predicate Sleeps(s: System) { exists w :: 0 <= w < |s.workers| && s.workers[w].Asleep? }

  /** A notification wakes a worker that sleeps, if one does. */
  predicate Wakes(s: System, sleeper: nat) { Sleeps(s) ==> sleeper < |s.workers| && s.workers[sleeper].Asleep? }

  predicate Enabled(s: System, limits: Limits, step: Step) {
    match step
    case Offer(_, press) => Depth(s.lines) < Room(limits, press)
    case NotifyOne(sleeper) => s.telling > 0 && Wakes(s, sleeper)
    case Close => !s.lines.closed
    case NotifyAll => s.tellingAll
    case Pass(w) => w < |s.workers| && (s.workers[w].Awake? || s.workers[w].Woken?)
    case Finish(w) => w < |s.workers| && (s.workers[w].Reading? || s.workers[w].Answering?)
    case Park(w) => w < |s.workers| && s.workers[w].Reading?
    case SayParked(w, sleeper) => w < |s.workers| && s.workers[w].Notifying? && Wakes(s, sleeper)
    case WakeByItself(w) => w < |s.workers| && s.workers[w].Asleep?
    case Tick(_) => true
  }

  function Notified(s: System, sleeper: nat): System
    requires Wakes(s, sleeper)
  {
    if Sleeps(s) then s.(workers := s.workers[sleeper := Woken]) else s
  }

  function WokenAll(workers: seq<Worker>): seq<Worker> {
    seq(|workers|, i requires 0 <= i < |workers| => if workers[i].Asleep? then Woken else workers[i])
  }

  function Passed(s: System, limits: Limits, w: nat): System
    requires Enabled(s, limits, Pass(w))
  {
    var next := HandedOut(s.lines, limits, s.clock);
    var t := s.(lines := Without(s.lines, next));
    match next
    case Unread(arrival) => t.(workers := s.workers[w := Reading(arrival.connection)], taken := s.taken + [arrival])
    case Parked(read) => t.(workers := s.workers[w := Answering(read.connection)], answered := s.answered + [read])
    case Closed => t.(workers := s.workers[w := Stopped])
    case Wait => t.(workers := s.workers[w := Asleep])
  }

  function Do(s: System, limits: Limits, step: Step): System
    requires Enabled(s, limits, step)
  {
    match step
    case Offer(arrival, _) =>
      s.(lines := Queued(s.lines, arrival), telling := s.telling + 1, offered := s.offered + [arrival],
         late := s.late + if s.lines.closed then 1 else 0)
    case NotifyOne(sleeper) => Notified(s, sleeper).(telling := s.telling - 1)
    case Close => s.(lines := s.lines.(closed := true), tellingAll := true)
    case NotifyAll => s.(workers := WokenAll(s.workers), tellingAll := false)
    case Pass(w) => Passed(s, limits, w)
    case Finish(w) => s.(workers := s.workers[w := Awake], finished := s.finished + [s.workers[w].c])
    case Park(w) =>
      var c := s.workers[w].c;
      s.(lines := WithParked(s.lines, c, s.clock), workers := s.workers[w := Notifying],
         parked := s.parked + [Read(c, s.clock)])
    case SayParked(w, sleeper) =>
      var t := Notified(s, sleeper);
      t.(workers := t.workers[w := Awake])
    case WakeByItself(w) => s.(workers := s.workers[w := Woken])
    case Tick(time) => s.(clock := s.clock + time)
  }

  // ----- Counting

  function Sum<T>(xs: seq<T>, weight: T -> nat): nat {
    if |xs| == 0 then 0 else weight(xs[0]) + Sum(xs[1..], weight)
  }

  lemma {:induction false} SumAfter<T>(xs: seq<T>, i: nat, x: T, weight: T -> nat)
    requires i < |xs|
    ensures Sum(xs[i := x], weight) + weight(xs[i]) == Sum(xs, weight) + weight(x)
  {
    if i == 0 {
      assert xs[i := x][1..] == xs[1..];
    } else {
      SumAfter(xs[1..], i - 1, x, weight);
      assert xs[i := x][1..] == xs[1..][i - 1 := x];
    }
  }

  lemma {:induction false} SumInTwo<T>(a: seq<T>, b: seq<T>, weight: T -> nat)
    ensures Sum(a + b, weight) == Sum(a, weight) + Sum(b, weight)
  {
    if |a| == 0 {
      assert a + b == b;
    } else {
      SumInTwo(a[1..], b, weight);
      assert (a + b)[1..] == a[1..] + b;
    }
  }

  lemma SumOneMore<T>(a: seq<T>, x: T, weight: T -> nat)
    ensures Sum(a + [x], weight) == Sum(a, weight) + weight(x)
  {
    SumInTwo(a, [x], weight);
    assert Sum([x][1..], weight) == 0;
  }

  lemma {:induction false} SumOfNone<T>(xs: seq<T>, weight: T -> nat)
    requires forall i | 0 <= i < |xs| :: weight(xs[i]) == 0
    ensures Sum(xs, weight) == 0
  {
    if |xs| > 0 {
      assert weight(xs[0]) == 0;
      forall i | 0 <= i < |xs[1..]|
        ensures weight(xs[1..][i]) == 0
      {
        assert xs[1..][i] == xs[i + 1];
      }
      SumOfNone(xs[1..], weight);
    }
  }

  lemma {:induction false} SumAtMostOneEach<T>(xs: seq<T>, weight: T -> nat)
    requires forall x :: weight(x) <= 1
    ensures Sum(xs, weight) <= |xs|
  {
    if |xs| > 0 {
      SumAtMostOneEach(xs[1..], weight);
    }
  }

  predicate Holds(worker: Worker) { worker.Reading? || worker.Answering? }

  function Helps(worker: Worker): nat { if worker.Woken? || worker.Notifying? then 1 else 0 }
  function HoldsOne(worker: Worker): nat { if Holds(worker) then 1 else 0 }

  /** How often a connection is in a worker's hands, an arrival, a read. */
  function HoldsIt(c: Connection): Worker -> nat { (worker: Worker) => if Holds(worker) && worker.c == c then 1 else 0 }
  function ArrivesAs(c: Connection): Arrival -> nat { (arrival: Arrival) => if arrival.connection == c then 1 else 0 }
  function IsReadOf(c: Connection): Read -> nat { (read: Read) => if read.connection == c then 1 else 0 }
  function Is(c: Connection): Connection -> nat { other => if other == c then 1 else 0 }

  /** The workers that are woken, or are about to wake another. */
  function Helping(workers: seq<Worker>): nat { Sum(workers, Helps) }

  /** The workers with a connection in their hands. */
  function Holding(workers: seq<Worker>): nat { Sum(workers, HoldsOne) }

  lemma {:induction false} WakingAllHoldsTheSame(workers: seq<Worker>, weight: Worker -> nat)
    requires weight(Asleep) == weight(Woken)
    ensures Sum(WokenAll(workers), weight) == Sum(workers, weight)
  {
    if |workers| > 0 {
      WakingAllHoldsTheSame(workers[1..], weight);
      assert WokenAll(workers)[1..] == WokenAll(workers[1..]);
    }
  }

  // ----- What every step keeps

  /** No wake-up is lost: either no worker sleeps, or no more waits than the
      workers already woken and the notifications still to come. */
  predicate NoneForgotten(s: System) {
    && (Sleeps(s) ==> Depth(s.lines) <= Helping(s.workers) + s.telling)
    && (Sleeps(s) && s.lines.closed ==> s.tellingAll)
  }

  /** Each line hands out what it took in, in order. */
  predicate InOrder(s: System) {
    && s.offered == s.taken + s.lines.unread
    && s.parked == s.answered + s.lines.parked
    && (forall i, j | 0 <= i <= j < |s.parked| :: s.parked[i].parkedAt <= s.parked[j].parkedAt)
    && (forall i | 0 <= i < |s.parked| :: s.parked[i].parkedAt <= s.clock)
  }

  /** What was handed out is parked, in a worker's hands, or finished with. */
  predicate Conserved(s: System, c: Connection) {
    Sum(s.taken, ArrivesAs(c)) + Sum(s.answered, IsReadOf(c))
    == Sum(s.parked, IsReadOf(c)) + Sum(s.workers, HoldsIt(c)) + Sum(s.finished, Is(c))
  }

  predicate Bounded(s: System, limits: Limits) {
    Depth(s.lines) + Holding(s.workers) <= limits.capacity + limits.reserve + |s.workers|
  }

  predicate AllStopped(s: System) { forall w | 0 <= w < |s.workers| :: s.workers[w].Stopped? }

  predicate StoppedEmpty(s: System) {
    && (forall w | 0 <= w < |s.workers| && s.workers[w].Stopped? :: s.lines.closed)
    && (AllStopped(s) ==> s.lines.parked == [] && |s.lines.unread| <= s.late)
  }

  lemma NotifiedForgetsNone(s: System, sleeper: nat)
    requires Wakes(s, sleeper)
    ensures var t := Notified(s, sleeper);
            && |t.workers| == |s.workers|
            && (Sleeps(s) ==> Helping(t.workers) == Helping(s.workers) + 1)
            && (Sleeps(t) ==> Sleeps(s))
  {
    if Sleeps(s) {
      SumAfter(s.workers, sleeper, Woken, Helps);
    }
    var t := Notified(s, sleeper);
    if Sleeps(t) {
      var w :| 0 <= w < |t.workers| && t.workers[w].Asleep?;
      assert s.workers[w].Asleep?;
    }
  }

  /** Whoever sleeps after a worker's own step slept before, or is that worker. */
  lemma SleptBefore(s: System, t: System, w: nat)
    requires w < |s.workers| == |t.workers| && t.workers == s.workers[w := t.workers[w]]
    requires Sleeps(t) && !t.workers[w].Asleep?
    ensures Sleeps(s)
  {
    var v :| 0 <= v < |t.workers| && t.workers[v].Asleep?;
    assert s.workers[v].Asleep?;
  }

  lemma WorkerForgetsNone(s: System, limits: Limits, step: Step)
    requires Enabled(s, limits, step) && NoneForgotten(s)
    requires step.Pass? || step.Finish? || step.Park? || step.WakeByItself?
    ensures NoneForgotten(Do(s, limits, step))
  {
    var t := Do(s, limits, step);
    SumAfter(s.workers, step.w, t.workers[step.w], Helps);
    if Sleeps(t) && !t.workers[step.w].Asleep? {
      SleptBefore(s, t, step.w);
    }
  }

  lemma DoForgetsNone(s: System, limits: Limits, step: Step)
    requires Enabled(s, limits, step) && NoneForgotten(s)
    ensures NoneForgotten(Do(s, limits, step))
  {
    var t := Do(s, limits, step);
    match step
    case NotifyOne(sleeper) => NotifiedForgetsNone(s, sleeper);
    case SayParked(w, sleeper) =>
      NotifiedForgetsNone(s, sleeper);
      SumAfter(Notified(s, sleeper).workers, w, Awake, Helps);
      if Sleeps(t) {
        var v :| 0 <= v < |t.workers| && t.workers[v].Asleep?;
        assert Notified(s, sleeper).workers[v].Asleep?;
      }
    case NotifyAll =>
      assert !Sleeps(t);
    case Offer(_, _) =>
    case Close =>
    case Tick(_) =>
    case _ => WorkerForgetsNone(s, limits, step);
  }

  lemma DoStaysInOrder(s: System, limits: Limits, step: Step)
    requires Enabled(s, limits, step) && InOrder(s)
    ensures InOrder(Do(s, limits, step))
  {
    if step.Pass? {
      PassStaysInOrder(s, limits, step.w);
    }
  }

  lemma PassStaysInOrder(s: System, limits: Limits, w: nat)
    requires Enabled(s, limits, Pass(w)) && InOrder(s)
    ensures InOrder(Passed(s, limits, w))
  {
    var t := Passed(s, limits, w);
    assert t.taken + t.lines.unread == s.taken + s.lines.unread;
    assert t.answered + t.lines.parked == s.answered + s.lines.parked;
  }

  lemma NotifiedHoldsTheSame(s: System, sleeper: nat, weight: Worker -> nat)
    requires Wakes(s, sleeper) && weight(Asleep) == weight(Woken)
    ensures Sum(Notified(s, sleeper).workers, weight) == Sum(s.workers, weight)
    ensures |Notified(s, sleeper).workers| == |s.workers|
  {
    if Sleeps(s) {
      SumAfter(s.workers, sleeper, Woken, weight);
    }
  }

  /** What a step makes of the workers, weighed by what they hold. */
  lemma WorkersWeigh(s: System, limits: Limits, step: Step, weight: Worker -> nat)
    requires Enabled(s, limits, step)
    requires weight(Asleep) == weight(Woken) == weight(Awake) == weight(Notifying) == weight(Stopped) == 0
    ensures var t := Do(s, limits, step);
            && |t.workers| == |s.workers|
            && (if step.Pass? || step.Finish? || step.Park?
                then Sum(t.workers, weight) + weight(s.workers[step.w])
                     == Sum(s.workers, weight) + weight(t.workers[step.w])
                else Sum(t.workers, weight) == Sum(s.workers, weight))
  {
    var t := Do(s, limits, step);
    if step.Pass? || step.Finish? || step.Park? || step.WakeByItself? {
      SumAfter(s.workers, step.w, t.workers[step.w], weight);
    } else if step.NotifyOne? {
      NotifiedHoldsTheSame(s, step.sleeper, weight);
    } else if step.NotifyAll? {
      WakingAllHoldsTheSame(s.workers, weight);
    } else if step.SayParked? {
      NotifiedHoldsTheSame(s, step.sleeper, weight);
      SumAfter(Notified(s, step.sleeper).workers, step.w, Awake, weight);
    }
  }

  lemma DoStaysBounded(s: System, limits: Limits, step: Step)
    requires Enabled(s, limits, step) && Bounded(s, limits)
    ensures Bounded(Do(s, limits, step), limits)
  {
    WorkersWeigh(s, limits, step, HoldsOne);
    if step.Offer? {
      SumAtMostOneEach(s.workers, HoldsOne);
    }
  }

  lemma DoConserves(s: System, limits: Limits, step: Step, c: Connection)
    requires Enabled(s, limits, step) && Conserved(s, c)
    ensures Conserved(Do(s, limits, step), c)
  {
    WorkersWeigh(s, limits, step, HoldsIt(c));
    if step.Pass? {
      PassConserves(s, limits, step.w, c);
      PassLeavesTheRest(s, limits, step.w);
    } else if step.Finish? || step.Park? {
      ParkOrFinishConserves(s, limits, step, c);
    } else {
      OthersLeaveHistory(s, limits, step);
    }
  }

  lemma PassLeavesTheRest(s: System, limits: Limits, w: nat)
    requires Enabled(s, limits, Pass(w))
    ensures var t := Passed(s, limits, w);
            t.parked == s.parked && t.finished == s.finished && !Holds(s.workers[w])
  {
  }

  lemma OthersLeaveHistory(s: System, limits: Limits, step: Step)
    requires Enabled(s, limits, step) && !step.Pass? && !step.Finish? && !step.Park?
    ensures var t := Do(s, limits, step);
            t.taken == s.taken && t.answered == s.answered && t.parked == s.parked && t.finished == s.finished
  {
  }

  lemma ParkOrFinishConserves(s: System, limits: Limits, step: Step, c: Connection)
    requires Enabled(s, limits, step) && (step.Finish? || step.Park?)
    ensures var t := Do(s, limits, step);
            && t.taken == s.taken && t.answered == s.answered && HoldsIt(c)(t.workers[step.w]) == 0
            && Sum(t.parked, IsReadOf(c)) + Sum(t.finished, Is(c))
               == Sum(s.parked, IsReadOf(c)) + Sum(s.finished, Is(c)) + HoldsIt(c)(s.workers[step.w])
  {
    if step.Finish? {
      SumOneMore(s.finished, s.workers[step.w].c, Is(c));
    } else {
      SumOneMore(s.parked, Read(s.workers[step.w].c, s.clock), IsReadOf(c));
    }
  }

  lemma PassConserves(s: System, limits: Limits, w: nat, c: Connection)
    requires Enabled(s, limits, Pass(w))
    ensures var t := Passed(s, limits, w);
            Sum(t.taken, ArrivesAs(c)) + Sum(t.answered, IsReadOf(c))
            == Sum(s.taken, ArrivesAs(c)) + Sum(s.answered, IsReadOf(c)) + HoldsIt(c)(t.workers[w])
  {
    var next := HandedOut(s.lines, limits, s.clock);
    if next.Unread? {
      SumOneMore(s.taken, next.arrival, ArrivesAs(c));
    } else if next.Parked? {
      SumOneMore(s.answered, next.read, IsReadOf(c));
    }
  }

  lemma DoStopsEmpty(s: System, limits: Limits, step: Step)
    requires Enabled(s, limits, step) && StoppedEmpty(s) && |s.workers| > 0
    ensures StoppedEmpty(Do(s, limits, step)) && |Do(s, limits, step).workers| == |s.workers|
  {
    var t := Do(s, limits, step);
    forall w | 0 <= w < |t.workers| && t.workers[w].Stopped?
      ensures t.lines.closed
    {
      if s.workers[w].Stopped? {
        assert s.lines.closed;
      }
    }
    if AllStopped(t) && step.Pass? {
      assert t.workers[step.w].Stopped?;
    } else if AllStopped(t) {
      forall w | 0 <= w < |s.workers|
        ensures s.workers[w].Stopped?
      {
        assert t.workers[w].Stopped?;
      }
      assert s.workers[0].Stopped?;
    }
  }

  // ----- Whole runs

  ghost predicate Sound(s: System, limits: Limits) {
    NoneForgotten(s) && InOrder(s) && Bounded(s, limits) && StoppedEmpty(s) && forall c :: Conserved(s, c)
  }

  predicate Possible(s: System, limits: Limits, steps: seq<Step>)
    decreases |steps|
  {
    |steps| == 0 || (Enabled(s, limits, steps[0]) && Possible(Do(s, limits, steps[0]), limits, steps[1..]))
  }

  function After(s: System, limits: Limits, steps: seq<Step>): System
    requires Possible(s, limits, steps)
    decreases |steps|
  {
    if |steps| == 0 then s else After(Do(s, limits, steps[0]), limits, steps[1..])
  }

  /** A new queue with its workers. */
  predicate Initial(s: System) {
    && s.lines == Lines([], [], false) && |s.workers| > 0 && (forall w | 0 <= w < |s.workers| :: s.workers[w].Awake?)
    && s.telling == 0 && !s.tellingAll && s.late == 0
    && s.offered == s.taken == [] && s.parked == s.answered == [] && s.finished == []
  }

  lemma StartsSound(s: System, limits: Limits)
    requires Initial(s)
    ensures Sound(s, limits)
  {
    SumOfNone(s.workers, HoldsOne);
    forall c
      ensures Conserved(s, c)
    {
      SumOfNone(s.workers, HoldsIt(c));
    }
    assert s.workers[0].Awake?;
  }

  lemma {:induction false} RunStaysSound(s: System, limits: Limits, steps: seq<Step>)
    requires Sound(s, limits) && Possible(s, limits, steps) && |s.workers| > 0
    ensures Sound(After(s, limits, steps), limits)
    ensures |After(s, limits, steps).workers| == |s.workers|
    decreases |steps|
  {
    if |steps| > 0 {
      DoForgetsNone(s, limits, steps[0]);
      DoStaysInOrder(s, limits, steps[0]);
      DoStaysBounded(s, limits, steps[0]);
      forall c
        ensures Conserved(Do(s, limits, steps[0]), c)
      {
        DoConserves(s, limits, steps[0], c);
      }
      DoStopsEmpty(s, limits, steps[0]);
      RunStaysSound(Do(s, limits, steps[0]), limits, steps[1..]);
    }
  }

  /** In every run: no wake-up is lost, each line hands out in order exactly
      what it took in, and what waits with what the workers hold never passes
      the capacity, the reserve and the number of workers together. */
  lemma EveryRun(s: System, limits: Limits, steps: seq<Step>)
    requires Initial(s) && Possible(s, limits, steps)
    ensures var t := After(s, limits, steps);
            && (!Sleeps(t) || Depth(t.lines) <= Helping(t.workers) + t.telling)
            && t.offered == t.taken + t.lines.unread && t.parked == t.answered + t.lines.parked
            && Depth(t.lines) + Holding(t.workers) <= limits.capacity + limits.reserve + |s.workers|
  {
    StartsSound(s, limits);
    RunStaysSound(s, limits, steps);
  }

  /** Every connection accepted waits in a line, is in a worker's hands, or is
      finished with: as often as it was accepted. */
  lemma EveryConnectionIsAccountedFor(s: System, limits: Limits, steps: seq<Step>, c: Connection)
    requires Initial(s) && Possible(s, limits, steps)
    ensures var t := After(s, limits, steps);
            Sum(t.offered, ArrivesAs(c))
            == Sum(t.lines.unread, ArrivesAs(c)) + Sum(t.lines.parked, IsReadOf(c))
               + Sum(t.workers, HoldsIt(c)) + Sum(t.finished, Is(c))
  {
    StartsSound(s, limits);
    RunStaysSound(s, limits, steps);
    var t := After(s, limits, steps);
    assert Conserved(t, c);
    SumInTwo(t.taken, t.lines.unread, ArrivesAs(c));
    SumInTwo(t.answered, t.lines.parked, IsReadOf(c));
  }

  // ----- Who is given room

  lemma {:induction false} PossibleInTwo(s: System, limits: Limits, first: seq<Step>, second: seq<Step>)
    ensures Possible(s, limits, first + second)
            <==> Possible(s, limits, first) && Possible(After(s, limits, first), limits, second)
    decreases |first|
  {
    if |first| == 0 {
      assert first + second == second;
    } else if Enabled(s, limits, first[0]) {
      assert (first + second)[1..] == first[1..] + second;
      PossibleInTwo(Do(s, limits, first[0]), limits, first[1..], second);
    }
  }

  /** After any run: an offer is taken if and only if fewer than the capacity wait,
      a press if and only if fewer than the capacity and the reserve together. */
  lemma TakenIff(s: System, limits: Limits, steps: seq<Step>, arrival: Arrival, press: bool)
    requires Possible(s, limits, steps)
    ensures var t := After(s, limits, steps);
            var waiting := |t.lines.unread| + |t.lines.parked|;
            Possible(s, limits, steps + [Offer(arrival, press)])
            <==> if press then waiting < limits.capacity + limits.reserve else waiting < limits.capacity
  {
    PossibleInTwo(s, limits, steps, [Offer(arrival, press)]);
  }

  /** So in every run what is queued while the capacity or more wait is a press: the
      reserve is kept for presses alone. */
  lemma TheReserveIsForPresses(s: System, limits: Limits, steps: seq<Step>, i: nat)
    requires Possible(s, limits, steps) && i < |steps| && steps[i].Offer?
    ensures Possible(s, limits, steps[..i])
    ensures var t := After(s, limits, steps[..i]);
            && (|t.lines.unread| + |t.lines.parked| >= limits.capacity ==> steps[i].press)
            && |t.lines.unread| + |t.lines.parked| < limits.capacity + limits.reserve
  {
    assert steps[..i] + [steps[i]] + steps[i + 1..] == steps;
    PossibleInTwo(s, limits, steps[..i] + [steps[i]], steps[i + 1..]);
    PossibleInTwo(s, limits, steps[..i], [steps[i]]);
    TakenIff(s, limits, steps[..i], steps[i].arrival, steps[i].press);
  }

  predicate Idle(worker: Worker) { worker.Asleep? || worker.Stopped? }

  /** When no worker has anything to do and no notification is still to come,
      nothing waits; unless all have stopped, and then no more than came after
      the close. Once it is closed they have all stopped. */
  lemma NothingIsLeftWaiting(s: System, limits: Limits, steps: seq<Step>)
    requires Initial(s) && Possible(s, limits, steps)
    requires var t := After(s, limits, steps);
             t.telling == 0 && !t.tellingAll && forall w | 0 <= w < |t.workers| :: Idle(t.workers[w])
    ensures var t := After(s, limits, steps);
            && (!t.lines.closed ==> Depth(t.lines) == 0)
            && (t.lines.closed ==> AllStopped(t))
            && (AllStopped(t) ==> t.lines.closed && t.lines.parked == [] && |t.lines.unread| <= t.late)
  {
    StartsSound(s, limits);
    RunStaysSound(s, limits, steps);
    var t := After(s, limits, steps);
    SumOfNone(t.workers, Helps);
    assert t.workers[0].Asleep? || t.workers[0].Stopped?;
  }

  /** A worker is told that the queue is closed only when nothing waits. */
  lemma ClosedOnlyWhenNothingWaits(s: System, limits: Limits, w: nat)
    requires Enabled(s, limits, Pass(w))
    ensures Do(s, limits, Pass(w)).workers[w].Stopped? <==> s.lines.closed && Depth(s.lines) == 0
  {
  }

  // ----- Overdue reads

  /** How many passes of a run hand something out. */
  function HandOuts(s: System, limits: Limits, steps: seq<Step>): nat
    requires Possible(s, limits, steps)
    decreases |steps|
  {
    if |steps| == 0 then 0
    else
      HandOuts(Do(s, limits, steps[0]), limits, steps[1..])
      + if steps[0].Pass? && Depth(s.lines) > 0 then 1 else 0
  }

  /** The read that was parked n reads after the first is overdue, or has been
      handed out. */
  predicate OverdueOrAnswered(s: System, limits: Limits, n: nat)
    requires n < |s.parked|
  {
    |s.answered| > n || IsOverdue(s.parked[n], limits, s.clock)
  }

  lemma StaysOverdue(s: System, limits: Limits, step: Step, n: nat)
    requires Enabled(s, limits, step) && InOrder(s) && n < |s.parked| && OverdueOrAnswered(s, limits, n)
    ensures var t := Do(s, limits, step);
            && n < |t.parked| && OverdueOrAnswered(t, limits, n) && |s.answered| <= |t.answered|
            && (step.Pass? && |s.answered| <= n ==> |t.answered| == |s.answered| + 1)
  {
    if |s.answered| <= n {
      assert s.parked[|s.answered|] == s.lines.parked[0];
      assert s.parked[|s.answered|].parkedAt <= s.parked[n].parkedAt;
    }
  }

  /** A read that is overdue with k parked before it is handed out within k + 1
      hand-outs, whatever else comes meanwhile. */
  lemma {:induction false} OverdueIsHandedOutNext(s: System, limits: Limits, steps: seq<Step>, n: nat)
    requires Possible(s, limits, steps) && InOrder(s) && n < |s.parked| && OverdueOrAnswered(s, limits, n)
    ensures var t := After(s, limits, steps);
            && InOrder(t)
            && (|t.answered| > n || |t.answered| >= |s.answered| + HandOuts(s, limits, steps))
    decreases |steps|
  {
    if |steps| > 0 {
      StaysOverdue(s, limits, steps[0], n);
      DoStaysInOrder(s, limits, steps[0]);
      OverdueIsHandedOutNext(Do(s, limits, steps[0]), limits, steps[1..], n);
    }
  }

  lemma HandedOutWithinItsTurn(s: System, limits: Limits, steps: seq<Step>, k: nat)
    requires Possible(s, limits, steps) && InOrder(s)
    requires k < |s.lines.parked| && IsOverdue(s.lines.parked[k], limits, s.clock)
    requires HandOuts(s, limits, steps) > k
    ensures var t := After(s, limits, steps);
            && |t.answered| > |s.answered| + k && |t.parked| >= |t.answered|
            && t.answered[|s.answered| + k] == s.lines.parked[k]
  {
    OverdueIsHandedOutNext(s, limits, steps, |s.answered| + k);
    HistoryGrows(s, limits, steps);
  }

  /** At no pass of the run is the oldest parked read overdue. */
  predicate NoneOverdue(s: System, limits: Limits, steps: seq<Step>)
    requires Possible(s, limits, steps)
    decreases |steps|
  {
    |steps| > 0 ==>
      && (steps[0].Pass? && |s.lines.parked| > 0 ==> !IsOverdue(s.lines.parked[0], limits, s.clock))
      && NoneOverdue(Do(s, limits, steps[0]), limits, steps[1..])
  }

  /** While no read is overdue, a connection with k accepted before it that are
      still unread is handed out within k + 1 hand-outs: no read comes before it. */
  lemma {:induction false} UnreadIsHandedOutNext(s: System, limits: Limits, steps: seq<Step>, n: nat)
    requires Possible(s, limits, steps) && NoneOverdue(s, limits, steps) && InOrder(s) && n < |s.offered|
    ensures var t := After(s, limits, steps);
            && InOrder(t)
            && (|t.taken| > n || |t.taken| >= |s.taken| + HandOuts(s, limits, steps))
    decreases |steps|
  {
    if |steps| > 0 {
      DoStaysInOrder(s, limits, steps[0]);
      TakesInTurn(s, limits, steps[0], n);
      UnreadIsHandedOutNext(Do(s, limits, steps[0]), limits, steps[1..], n);
    }
  }

  lemma TakesInTurn(s: System, limits: Limits, step: Step, n: nat)
    requires Enabled(s, limits, step) && InOrder(s) && n < |s.offered|
    requires step.Pass? && |s.lines.parked| > 0 ==> !IsOverdue(s.lines.parked[0], limits, s.clock)
    ensures var t := Do(s, limits, step);
            && n < |t.offered| && |s.taken| <= |t.taken|
            && (step.Pass? && |s.taken| <= n ==> |t.taken| == |s.taken| + 1)
  {
  }

  lemma {:induction false} HistoryGrows(s: System, limits: Limits, steps: seq<Step>)
    requires Possible(s, limits, steps)
    ensures s.parked <= After(s, limits, steps).parked && s.answered <= After(s, limits, steps).answered
    decreases |steps|
  {
    if |steps| > 0 {
      HistoryGrows(Do(s, limits, steps[0]), limits, steps[1..]);
    }
  }
}

/** The deck's bridge's queue: connections not read yet, and reads parked behind
    them until they are overdue. */
module DeckPool {
  import opened Common

  type Connection = nat

  datatype Arrival = Arrival(connection: Connection, arrived: Moment)
  datatype Read = Read(connection: Connection, parkedAt: Moment)

  datatype Lines = Lines(unread: seq<Arrival>, parked: seq<Read>, closed: bool)

  datatype Limits = Limits(capacity: nat, reserve: nat, parkedAtMost: nat)

  /** What a worker is handed; or it is to wait. */
  datatype Next = Unread(arrival: Arrival) | Parked(read: Read) | Closed | Wait

  function Depth(lines: Lines): nat { |lines.unread| + |lines.parked| }

  predicate IsOverdue(read: Read, limits: Limits, now: Moment) { Since(read.parkedAt, now) >= limits.parkedAtMost }

  function Room(limits: Limits, press: bool): nat {
    limits.capacity + if press then limits.reserve else 0
  }

  function Queued(lines: Lines, arrival: Arrival): Lines { lines.(unread := lines.unread + [arrival]) }

  function WithParked(lines: Lines, connection: Connection, now: Moment): Lines {
    lines.(parked := lines.parked + [Read(connection, now)])
  }

  /** One pass of a worker under the lock. */
  function HandedOut(lines: Lines, limits: Limits, now: Moment): Next {
    if |lines.unread| > 0 && !(|lines.parked| > 0 && IsOverdue(lines.parked[0], limits, now))
    then Unread(lines.unread[0])
    else if |lines.parked| > 0 then Parked(lines.parked[0])
    else if lines.closed then Closed
    else Wait
  }

  function Without(lines: Lines, next: Next): Lines
    requires next.Unread? ==> |lines.unread| > 0
    requires next.Parked? ==> |lines.parked| > 0
  {
    match next
    case Unread(_) => lines.(unread := lines.unread[1..])
    case Parked(_) => lines.(parked := lines.parked[1..])
    case _ => lines
  }

  class Pool {
    var unread: seq<Arrival>
    var parked: seq<Read>
    var closed: bool
    const capacity: nat
    const reserve: nat
    const parkedAtMost: nat

    function State(): Lines
      reads this
    {
      Lines(unread, parked, closed)
    }

    function Bounds(): Limits { Limits(capacity, reserve, parkedAtMost) }

    /** A queue for nothing holds one. */
    constructor (capacity: nat, reserve: nat, parkedAtMost: nat)
      ensures State() == Lines([], [], false)
      ensures Bounds() == Limits(if capacity == 0 then 1 else capacity, reserve, parkedAtMost)
    {
      unread, parked, closed := [], [], false;
      this.capacity := if capacity == 0 then 1 else capacity;
      this.reserve, this.parkedAtMost := reserve, parkedAtMost;
    }

    method Queue(connection: Connection, arrived: Moment, room: nat) returns (r: Result<nat, Connection>)
      modifies this
      ensures r.Ok? <==> |old(unread)| + |old(parked)| < room
      ensures r.Ok? ==> unread == old(unread) + [Arrival(connection, arrived)] && r.value == |unread| + |parked|
      ensures r.Err? ==> unread == old(unread) && r.error == connection
      ensures parked == old(parked) && closed == old(closed)
      ensures r.Ok? ==> State() == Queued(old(State()), Arrival(connection, arrived))
    {
      if |unread| + |parked| >= room {
        return Err(connection);
      }
      unread := unread + [Arrival(connection, arrived)];
      r := Ok(|unread| + |parked|);
    }

    method Offer(connection: Connection, arrived: Moment) returns (r: Result<nat, Connection>)
      modifies this
      ensures r.Ok? <==> |old(unread)| + |old(parked)| < capacity
      ensures r.Ok? ==> unread == old(unread) + [Arrival(connection, arrived)] && r.value == |unread| + |parked|
      ensures r.Err? ==> unread == old(unread) && r.error == connection
      ensures parked == old(parked) && closed == old(closed)
      ensures r.Ok? ==> State() == Queued(old(State()), Arrival(connection, arrived))
    {
      r := Queue(connection, arrived, capacity);
    }

    method OfferPress(connection: Connection, arrived: Moment) returns (r: Result<nat, Connection>)
      modifies this
      ensures r.Ok? <==> |old(unread)| + |old(parked)| < capacity + reserve
      ensures r.Ok? ==> unread == old(unread) + [Arrival(connection, arrived)] && r.value == |unread| + |parked|
      ensures r.Err? ==> unread == old(unread) && r.error == connection
      ensures parked == old(parked) && closed == old(closed)
      ensures r.Ok? ==> State() == Queued(old(State()), Arrival(connection, arrived))
    {
      r := Queue(connection, arrived, capacity + reserve);
    }

    method Park(connection: Connection, now: Moment)
      modifies this
      ensures State() == WithParked(old(State()), connection, now)
    {
      parked := parked + [Read(connection, now)];
    }

    /** One pass of a worker's loop, from the lock to what it is handed or to
        its wait: the oldest parked read once it has waited `parkedAtMost` or
        nothing is unread, else the oldest unread connection. */
    method HandOut(now: Moment) returns (next: Next)
      modifies this
      ensures next == HandedOut(old(State()), Bounds(), now) && State() == Without(old(State()), next)
      ensures next.Parked? <==>
                |old(parked)| > 0 && (|old(unread)| == 0 || Since(old(parked)[0].parkedAt, now) >= parkedAtMost)
      ensures next.Parked? ==> [next.read] + parked == old(parked) && unread == old(unread)
      ensures next.Unread? <==> |old(unread)| > 0 && !next.Parked?
      ensures next.Unread? ==> [next.arrival] + unread == old(unread) && parked == old(parked)
      ensures next.Closed? <==> closed && |old(unread)| == |old(parked)| == 0
    {
      var overdue := |parked| > 0 && Since(parked[0].parkedAt, now) >= parkedAtMost;
      if !overdue && |unread| > 0 {
        next := Unread(unread[0]);
        unread := unread[1..];
        return;
      }
      if |parked| > 0 {
        next := Parked(parked[0]);
        parked := parked[1..];
        return;
      }
      next := if closed then Closed else Wait;
    }

    method Close()
      modifies this
      ensures State() == old(State()).(closed := true)
    {
      closed := true;
    }
  }
}

/** The backups directory: copies named by their reason and moment, of which a
    prune keeps the newest of every reason. */
module Backups {
  datatype Reason = PreMigration | Daily | Shutdown | PreRestore | Replaced

  /** `db-<moment>-<reason>`: within a reason, names sort as their moments. */
  datatype Name = Name(reason: Reason, at: nat)

  const REASONS: seq<Reason> := [PreMigration, Daily, Shutdown, PreRestore, Replaced]

  function Retention(reason: Reason): nat {
    match reason
    case PreMigration => 5
    case Daily => 14
    case Shutdown => 3
    case PreRestore => 5
    case Replaced => 5
  }

  /** The moments of a reason's copies. */
  function Moments<T>(backups: map<Name, T>, reason: Reason): set<nat> {
    set n | n in backups.Keys && n.reason == reason :: n.at
  }

  function LaterThan(moments: set<nat>, at: nat): set<nat> { set m | m in moments && at < m }

  /** How many copies of its reason have a later name. */
  function Later<T>(backups: map<Name, T>, n: Name): nat { |LaterThan(Moments(backups, n.reason), n.at)| }

  /** As many later copies as are kept. */
  predicate IsSurplus<T>(backups: map<Name, T>, n: Name) { Later(backups, n) >= Retention(n.reason) }

  // ----- Sorted names

  predicate IsSmallest(moments: set<nat>, m: nat) { m in moments && forall other | other in moments :: m <= other }

  lemma {:induction false} SmallestExists(moments: set<nat>)
    requires moments != {}
    ensures exists m :: IsSmallest(moments, m)
  {
    var m :| m in moments;
    var rest := moments - {m};
    assert moments == rest + {m};
    if rest == {} {
      assert IsSmallest(moments, m);
    } else {
      SmallestExists(rest);
      var least :| IsSmallest(rest, least);
      assert IsSmallest(moments, if m <= least then m else least);
    }
  }

  function Smallest(moments: set<nat>): (m: nat)
    requires moments != {}
    ensures IsSmallest(moments, m)
  {
    SmallestExists(moments);
    var m :| IsSmallest(moments, m);
    m
  }

  predicate Ascending(moments: seq<nat>) { forall i, j | 0 <= i < j < |moments| :: moments[i] < moments[j] }

  /** The oldest beyond those that are kept, oldest first. */
  function Excess(moments: set<nat>, keep: nat): (excess: seq<nat>)
    ensures Ascending(excess) && forall m | m in excess :: m in moments
    decreases |moments|
  {
    if |moments| <= keep then []
    else
      var first := Smallest(moments);
      var rest := Excess(moments - {first}, keep);
      assert forall j | 0 <= j < |rest| :: first < rest[j] by {
        forall j | 0 <= j < |rest|
          ensures first < rest[j]
        {
          assert rest[j] in rest && rest[j] in moments - {first};
        }
      }
      [first] + rest
  }

  /** What is removed is what has as many later names as are kept. */
  lemma {:induction false} ExcessIff(moments: set<nat>, keep: nat, at: nat)
    requires at in moments
    ensures at in Excess(moments, keep) <==> |LaterThan(moments, at)| >= keep
    decreases |moments|
  {
    if |moments| <= keep {
      FewerAreLater(moments, at);
    } else {
      var first := Smallest(moments);
      if at == first {
        assert LaterThan(moments, at) == moments - {at};
      } else {
        assert LaterThan(moments, at) == LaterThan(moments - {first}, at);
        ExcessIff(moments - {first}, keep, at);
      }
    }
  }

  lemma FewerAreLater(moments: set<nat>, at: nat)
    requires at in moments
    ensures |LaterThan(moments, at)| < |moments|
  {
    SubsetIsSmaller(LaterThan(moments, at), moments - {at});
  }

  lemma {:induction false} SubsetIsSmaller(a: set<nat>, b: set<nat>)
    requires a <= b
    ensures |a| <= |b|
  {
    if a != {} {
      var x :| x in a;
      SubsetIsSmaller(a - {x}, b - {x});
    }
  }

  // ----- A prune

  function Named(reason: Reason, moments: seq<nat>): seq<Name> {
    seq(|moments|, i requires 0 <= i < |moments| => Name(reason, moments[i]))
  }

  function ExcessOf<T>(backups: map<Name, T>, reason: Reason): seq<Name> {
    Named(reason, Excess(Moments(backups, reason), Retention(reason)))
  }

  function PrunedOf<T>(backups: map<Name, T>, reasons: seq<Reason>): seq<Name> {
    if |reasons| == 0 then [] else ExcessOf(backups, reasons[0]) + PrunedOf(backups, reasons[1..])
  }

  /** `prune_snapshots`: what it removes, in order. */
  function Pruned<T>(backups: map<Name, T>): seq<Name> { PrunedOf(backups, REASONS) }

  lemma ExcessOfIff<T>(backups: map<Name, T>, reason: Reason, n: Name)
    ensures n in ExcessOf(backups, reason) <==> n in backups && n.reason == reason && IsSurplus(backups, n)
  {
    var moments := Moments(backups, reason);
    var excess := Excess(moments, Retention(reason));
    if n in ExcessOf(backups, reason) {
      assert n.at in excess && n.at in moments;
      ExcessIff(moments, Retention(reason), n.at);
    } else if n in backups && n.reason == reason {
      assert n.at in moments;
      ExcessIff(moments, Retention(reason), n.at);
      assert forall i | 0 <= i < |excess| :: ExcessOf(backups, reason)[i] == Name(reason, excess[i]);
    }
  }

  lemma {:induction false} PrunedOfIff<T>(backups: map<Name, T>, reasons: seq<Reason>, n: Name)
    ensures n in PrunedOf(backups, reasons) <==> n in backups && n.reason in reasons && IsSurplus(backups, n)
  {
    if |reasons| > 0 {
      ExcessOfIff(backups, reasons[0], n);
      PrunedOfIff(backups, reasons[1..], n);
    }
  }

  /** A prune removes exactly the copies with as many later ones of their reason
      as are kept. */
  lemma PrunedIff<T>(backups: map<Name, T>, n: Name)
    ensures n in Pruned(backups) <==> n in backups && IsSurplus(backups, n)
  {
    PrunedOfIff(backups, REASONS, n);
    match n.reason
    case PreMigration => assert REASONS[0] == n.reason;
    case Daily => assert REASONS[1] == n.reason;
    case Shutdown => assert REASONS[2] == n.reason;
    case PreRestore => assert REASONS[3] == n.reason;
    case Replaced => assert REASONS[4] == n.reason;
  }

  /** Copies are removed once each, the oldest of a reason first, and each of them
      is surplus: so the later ones of its reason are there when it goes. */
  predicate InPruneOrder<T>(backups: map<Name, T>, names: seq<Name>) {
    && (forall i | 0 <= i < |names| :: names[i] in backups && IsSurplus(backups, names[i]))
    && (forall i, j | 0 <= i < j < |names| ::
          names[i] != names[j] && (names[i].reason == names[j].reason ==> names[i].at < names[j].at))
  }

  lemma {:induction false} PrunedOfInOrder<T>(backups: map<Name, T>, reasons: seq<Reason>)
    requires forall i, j | 0 <= i < j < |reasons| :: reasons[i] != reasons[j]
    ensures InPruneOrder(backups, PrunedOf(backups, reasons))
    ensures forall n | n in PrunedOf(backups, reasons) :: n.reason in reasons
  {
    if |reasons| > 0 {
      PrunedOfInOrder(backups, reasons[1..]);
      var first, rest := ExcessOf(backups, reasons[0]), PrunedOf(backups, reasons[1..]);
      ExcessOfInOrder(backups, reasons[0]);
      assert forall n | n in rest :: n.reason in reasons[1..] && n.reason != reasons[0];
      OneReasonAndTheRest(backups, first, rest, reasons[0]);
    }
  }

  lemma ExcessOfInOrder<T>(backups: map<Name, T>, reason: Reason)
    ensures InPruneOrder(backups, ExcessOf(backups, reason))
    ensures forall n | n in ExcessOf(backups, reason) :: n.reason == reason
  {
    var names := ExcessOf(backups, reason);
    forall i | 0 <= i < |names|
      ensures names[i] in backups && IsSurplus(backups, names[i])
    {
      assert names[i] in names;
      ExcessOfIff(backups, reason, names[i]);
    }
  }

  lemma OneReasonAndTheRest<T>(backups: map<Name, T>, first: seq<Name>, rest: seq<Name>, reason: Reason)
    requires InPruneOrder(backups, first) && InPruneOrder(backups, rest)
    requires (forall n | n in first :: n.reason == reason) && forall n | n in rest :: n.reason != reason
    ensures InPruneOrder(backups, first + rest)
  {
    assert forall i | 0 <= i < |first| :: first[i] in first;
    assert forall i | 0 <= i < |rest| :: rest[i] in rest;
  }

  lemma PrunedInOrder<T>(backups: map<Name, T>)
    ensures InPruneOrder(backups, Pruned(backups))
  {
    PrunedOfInOrder(backups, REASONS);
  }

  /** When the first goes, the rest are still in order. */
  lemma OneLess<T>(backups: map<Name, T>, names: seq<Name>)
    requires |names| > 0 && InPruneOrder(backups, names)
    ensures InPruneOrder(backups - {names[0]}, names[1..])
  {
    var less := backups - {names[0]};
    forall i | 0 <= i < |names[1..]|
      ensures names[1..][i] in less && IsSurplus(less, names[1..][i])
    {
      var n := names[i + 1];
      assert names[0] != n && IsSurplus(backups, n);
      assert LaterThan(Moments(less, n.reason), n.at) == LaterThan(Moments(backups, n.reason), n.at) by {
        forall m | m in LaterThan(Moments(backups, n.reason), n.at)
          ensures m in Moments(less, n.reason)
        {
          assert Name(n.reason, m) in backups && Name(n.reason, m) != names[0];
          assert Name(n.reason, m) in less.Keys;
        }
        forall m | m in Moments(less, n.reason)
          ensures m in Moments(backups, n.reason)
        {
          assert Name(n.reason, m) in less.Keys && Name(n.reason, m) in backups.Keys;
        }
      }
    }
  }

  /** Nothing is removed while no reason has more copies than are kept. */
  lemma PrunesNothingIff<T>(backups: map<Name, T>)
    ensures Pruned(backups) == [] <==> forall n | n in backups :: !IsSurplus(backups, n)
  {
    forall n
      ensures n in Pruned(backups) <==> n in backups && IsSurplus(backups, n)
    {
      PrunedIff(backups, n);
    }
    if Pruned(backups) != [] {
      assert Pruned(backups)[0] in Pruned(backups);
    }
  }
}

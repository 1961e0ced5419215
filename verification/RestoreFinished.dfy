/** What a start that finishes has written, what it leaves of the marker, and how
    long the operator's word stands after it. */
module RestoreFinished {
  import opened Common
  import opened Backups
  import opened Restore
  import opened RestoreRuns

  // ----- What the flag is

  /** The transaction writes the flag. */
  predicate Writes(c: Commit, armed: bool) { (c.Launch? || c.Change?) && c.armed == Some(armed) }

  ghost predicate IsRearmed(commits: seq<Commit>, i: nat) {
    exists j :: i < j < |commits| && Writes(commits[j], true)
  }

  ghost predicate EachIsRearmed(commits: seq<Commit>) {
    forall i: nat | i < |commits| && Writes(commits[i], false) :: IsRearmed(commits, i)
  }

  /** The light outputs are held if and only if some transaction held them and none
      after it armed them; so they are armed when nothing ever said. */
  lemma {:induction false} ArmedIff(commits: seq<Commit>)
    ensures ArmedBy(commits) <==> EachIsRearmed(commits)
  {
    if |commits| > 0 {
      var n := |commits| - 1;
      ArmedIff(commits[..n]);
      if Writes(commits[n], true) {
        assert forall i: nat | i < n :: IsRearmed(commits, i);
      } else if !Writes(commits[n], false) {
        forall i: nat | i < n
          ensures IsRearmed(commits, i) <==> IsRearmed(commits[..n], i)
        {
          assert forall j | 0 <= j < n :: commits[..n][j] == commits[j];
        }
        assert forall i: nat | i < n :: commits[..n][i] == commits[i];
      } else {
        assert !IsRearmed(commits, n);
      }
    }
  }

  // ----- The contents of the live database

  /** The database a start opens: the staged file if it is accepted, else the live
      one, else a new one. */
  function Opened(d: Disk): Database {
    if Applies(d) then d.pending.value
    else if d.live.Some? then d.live.value.(commits := Committed(d))
    else Database(true, 0, [])
  }

  /** Each step of the upgrade from a schema to this app's, in turn. */
  function Steps(schema: nat): seq<Commit>
    requires schema <= STORAGE_SCHEMA_VERSION
  {
    seq(STORAGE_SCHEMA_VERSION - schema, i requires 0 <= i < STORAGE_SCHEMA_VERSION - schema => Upgrade(schema + 1 + i))
  }

  /** What opening a database of a schema appends to it: the tables of a new one,
      the steps of the upgrade, the settings it lacks. */
  function Opening(schema: nat): seq<Commit>
    requires schema <= STORAGE_SCHEMA_VERSION
  {
    (if schema == 0 then [Tables] else []) + Steps(schema) + [Defaults]
  }

  /** What a start says of a restore, or of the outputs that it holds. */
  function RowOf(d: Disk): LaunchRow {
    if Applies(d) then DatabaseRestored
    else if d.pending.Some? then RestoreRefused
    else if d.marker then RestoreUnfinished
    else OutputsHeld
  }

  /** A start has something to say when it found a restore, when one is owed, or
      when it is a safe start of a database that is armed. */
  predicate HasARow(d: Disk, luck: Luck) {
    d.pending.Some? || d.marker || (luck.safeStart && ArmedBy(Opened(d).commits))
  }

  /** What the start writes of the outputs: one row, and the flag if it was armed. */
  function Launching(d: Disk, luck: Luck): seq<Commit> {
    if HasARow(d, luck) then
      [Launch(if ArmedBy(Opened(d).commits) then Some(false) else None, [RowOf(d)])]
    else []
  }

  /** `e` is `d` with `more` committed to its live database, now of `schema`. */
  predicate Appended(d: Disk, e: Disk, more: seq<Commit>, schema: nat)
    requires d.live.Some?
  {
    && e.live.Some? && Committed(e) == Committed(d) + more && e.live.value.schema == schema
    && e.marker == d.marker && e.pending == d.pending
  }

  lemma AppendedInTwo(d: Disk, e: Disk, f: Disk, more: seq<Commit>, rest: seq<Commit>, s: nat, t: nat)
    requires d.live.Some? && Appended(d, e, more, s) && Appended(e, f, rest, t)
    ensures Appended(d, f, more + rest, t)
  {
  }

  lemma OneAppended(d: Disk, c: Commit)
    requires d.live.Some?
    ensures Run(d, [Commit(c)]) == WithCommit(d, c)
    ensures Appended(d, WithCommit(d, c), [c], if c.Upgrade? then c.version else d.live.value.schema)
  {
    RunOne(d, Commit(c), true);
    CommittedOneMore(d, WithCommit(d, c), c);
  }

  lemma CommittedOneMore(d: Disk, e: Disk, c: Commit)
    requires d.live.Some? && e.live.Some? && e.live.value.commits == d.live.value.commits
    requires e.wal == Some(Log(d) + [c])
    ensures Committed(e) == Committed(d) + [c]
  {
  }

  lemma StepsInTurn(schema: nat)
    requires schema < STORAGE_SCHEMA_VERSION
    ensures Steps(schema) == [Upgrade(schema + 1)] + Steps(schema + 1)
    ensures UpgradeOps(schema) == [Commit(Upgrade(schema + 1))] + UpgradeOps(schema + 1)
  {
  }

  lemma OneThenRest(d: Disk, c: Commit, ops: seq<Op>, rest: seq<Op>, e: Disk)
    requires ops == [Commit(c)] + rest && e == Run(WithCommit(d, c), rest)
    ensures Run(d, ops) == e
  {
    RunOne(d, Commit(c), true);
    RunThen(d, [Commit(c)], rest, true);
  }

  lemma {:induction false} UpgradeAppends(d: Disk, schema: nat)
    requires d.live.Some? && d.live.value.schema == schema <= STORAGE_SCHEMA_VERSION
    ensures Appended(d, Run(d, UpgradeOps(schema)), Steps(schema), STORAGE_SCHEMA_VERSION)
    decreases STORAGE_SCHEMA_VERSION - schema
  {
    if schema < STORAGE_SCHEMA_VERSION {
      var step := Upgrade(schema + 1);
      var e, rest := WithCommit(d, step), UpgradeOps(schema + 1);
      OneAppended(d, step);
      UpgradeAppends(e, schema + 1);
      StepsInTurn(schema);
      OneThenRest(d, step, UpgradeOps(schema), rest, Run(e, rest));
      AppendedInTwo(d, e, Run(e, rest), [step], Steps(schema + 1), schema + 1, STORAGE_SCHEMA_VERSION);
    }
  }

  lemma MigrateAppends(d: Disk, schema: nat)
    requires d.live.Some? && d.live.value.schema == schema <= STORAGE_SCHEMA_VERSION
    ensures Appended(d, Run(d, MigrateOps(schema)), (if schema == 0 then [Tables] else []) + Steps(schema),
                     STORAGE_SCHEMA_VERSION)
  {
    if schema == 0 {
      OneAppended(d, Tables);
      var e := WithCommit(d, Tables);
      UpgradeAppends(e, 0);
      RunThen(d, [Commit(Tables)], UpgradeOps(0), true);
      AppendedInTwo(d, e, Run(e, UpgradeOps(0)), [Tables], Steps(0), 0, STORAGE_SCHEMA_VERSION);
    } else {
      assert MigrateOps(schema) == UpgradeOps(schema);
      UpgradeAppends(d, schema);
      assert [] + Steps(schema) == Steps(schema);
    }
  }

  lemma SeedingAppends(d: Disk)
    requires d.live.Some?
    ensures Appended(d, Run(d, [Commit(Defaults), WriteLog]), [Defaults], d.live.value.schema)
  {
    RunTwo(d, Commit(Defaults), WriteLog, true);
    OneAppended(d, Defaults);
  }

  lemma OpenAppends(d: Disk, luck: Luck)
    requires d.live.Some? && d.pending.None? && OpenScript(d, luck).completes
    ensures d.live.value.schema <= STORAGE_SCHEMA_VERSION
    ensures Appended(d, Run(d, OpenScript(d, luck).ops), Opening(d.live.value.schema), STORAGE_SCHEMA_VERSION)
  {
    var schema := d.live.value.schema;
    var backUp := BackUpScript(d, luck);
    BackUpFollows(d, luck);
    var d1 := Run(d, backUp.ops);
    assert Appended(d, d1, [], schema);
    var rest := MigrateOps(schema) + [Commit(Defaults), WriteLog];
    RunThen(d, backUp.ops, rest, true);
    MigrateAppends(d1, schema);
    var d2 := Run(d1, MigrateOps(schema));
    SeedingAppends(d2);
    RunThen(d1, MigrateOps(schema), [Commit(Defaults), WriteLog], true);
    var tables := if schema == 0 then [Tables] else [];
    AppendedInTwo(d1, d2, Run(d1, rest), tables + Steps(schema), [Defaults], STORAGE_SCHEMA_VERSION,
                  STORAGE_SCHEMA_VERSION);
    AppendedInTwo(d, d1, Run(d1, rest), [], Opening(schema), schema, STORAGE_SCHEMA_VERSION);
    assert [] + Opening(schema) == Opening(schema);
  }

  /** What a start has after it opened the database. */
  lemma InitializeAppends(d: Disk, luck: Luck)
    requires d.pending.None? && InitializeScript(d, luck).completes
    ensures var base, e := Opened(d), Run(d, InitializeScript(d, luck).ops);
            && base.schema <= STORAGE_SCHEMA_VERSION
            && e.live.Some? && e.live.value.schema == STORAGE_SCHEMA_VERSION
            && Committed(e) == base.commits + Opening(base.schema) && e.marker == d.marker
  {
    if d.live.None? {
      var created := Do(d, CreateLive);
      RunOne(d, CreateLive, true);
      OpenAppends(created, luck);
      RunThen(d, [CreateLive], OpenScript(created, luck).ops, true);
      assert Committed(created) == [];
    } else {
      OpenAppends(d, luck);
    }
  }

  lemma {:induction false} QuietLeavesArmed(commits: seq<Commit>, more: seq<Commit>)
    requires forall i | 0 <= i < |more| :: SetBy(more[i]).None?
    ensures ArmedBy(commits + more) == ArmedBy(commits)
  {
    if |more| == 0 {
      assert commits + more == commits;
    } else {
      var n := |more| - 1;
      QuietLeavesArmed(commits, more[..n]);
      assert (commits + more)[..|commits| + n] == commits + more[..n];
    }
  }

  lemma OpeningIsQuiet(commits: seq<Commit>, schema: nat)
    requires schema <= STORAGE_SCHEMA_VERSION
    ensures ArmedBy(commits + Opening(schema)) == ArmedBy(commits)
  {
    QuietLeavesArmed(commits, Opening(schema));
  }

  lemma HoldRuns(d: Disk, safe: seq<Op>, commit: seq<Op>, unmark: seq<Op>, e: Disk)
    requires Run(d, safe) == d && Run(d, commit) == e
    requires Run(e, unmark).live == e.live && Run(e, unmark).wal == e.wal
    ensures var f := Run(d, safe + commit + unmark); f.live == e.live && f.wal == e.wal
  {
    RunThen(d, safe, commit, true);
    RunThen(d, safe + commit, unmark, true);
  }

  lemma HoldInParts(d: Disk, applied: bool, staged: bool, luck: Luck, commit: Option<Commit>)
    requires d.live.Some? && d.pending.None?
    requires commit == LaunchCommit(ArmedBy(Committed(d)), applied, staged, d.marker, luck.safeStart)
    ensures var e := Run(d, HoldOps(d, applied, staged, luck));
            e.live == Launched(d, commit).live && e.wal == Launched(d, commit).wal
  {
    SafeStartFollows(d, luck);
    CommitRuns(d, commit);
    UnmarkLeavesContents(Launched(d, commit), d.marker, luck);
    HoldRuns(d, SafeStartOps(luck), CommitOps(commit), UnmarkOps(d.marker, luck), Launched(d, commit));
  }

  lemma CommitRuns(d: Disk, commit: Option<Commit>)
    ensures Run(d, CommitOps(commit)) == Launched(d, commit)
  {
    if commit.Some? {
      RunOne(d, Commit(commit.value), true);
    }
  }

  lemma UnmarkLeavesContents(d: Disk, owed: bool, luck: Luck)
    ensures var e := Run(d, UnmarkOps(owed, luck)); e.live == d.live && e.wal == d.wal
  {
    RunOne(d, RemoveMarker, true);
    RunOne(d, WriteLog, true);
  }

  lemma HoldAppends(d: Disk, before: Disk, luck: Luck)
    requires d.live.Some? && d.pending.None?
    requires ArmedBy(Committed(d)) == ArmedBy(Opened(before).commits)
    requires d.marker <==> before.pending.Some? || before.marker
    ensures var e := Run(d, HoldOps(d, Applies(before), before.pending.Some?, luck));
            && e.live.Some? && Committed(e) == Committed(d) + Launching(before, luck)
            && e.live.value.schema == d.live.value.schema
  {
    var stored := ArmedBy(Committed(d));
    var commit := LaunchCommit(stored, Applies(before), before.pending.Some?, d.marker, luck.safeStart);
    LaunchIsOneRow(before, stored, luck);
    HoldInParts(d, Applies(before), before.pending.Some?, luck, commit);
    if commit.Some? {
      CommitAppends(d, commit.value);
    }
  }

  lemma LaunchIsOneRow(d: Disk, stored: bool, luck: Luck)
    requires stored == ArmedBy(Opened(d).commits)
    ensures var owed := d.pending.Some? || d.marker;
            var commit := LaunchCommit(stored, Applies(d), d.pending.Some?, owed, luck.safeStart);
            Launching(d, luck) == if commit.Some? then [commit.value] else []
  {
    var owed := d.pending.Some? || d.marker;
    var restored := RestoreRows(Applies(d), d.pending.Some?, owed);
    assert restored == if owed then [RowOf(d)] else [];
    assert restored + [] == restored && [] + [OutputsHeld] == [OutputsHeld];
  }

  /** A start that finishes leaves this app's schema at the live name, and in it what
      was there to open, then the tables of a new database, each step of the upgrade,
      the settings, and about the outputs one row at most: what became of a restore,
      or that a safe start holds them. */
  lemma AFinishedStartWrites(d: Disk, luck: Luck, life: nat)
    requires Finishes(d, luck, life)
    ensures var base, e := Opened(d), AfterStart(d, luck, life);
            && base.schema <= STORAGE_SCHEMA_VERSION
            && e.live.Some? && e.live.value.schema == STORAGE_SCHEMA_VERSION
            && Committed(e) == base.commits + Opening(base.schema) + Launching(d, luck)
  {
    var apply := ApplyScript(d, luck);
    ApplyFollows(d, luck);
    var d1 := Run(d, apply.ops);
    AppliedIsOpened(d, luck);
    var initialize := InitializeScript(d1, luck);
    InitializeAppends(d1, luck);
    InitializeFollows(d1, luck);
    var d2 := Run(d1, initialize.ops);
    OpeningIsQuiet(Opened(d).commits, Opened(d).schema);
    HoldAppends(d2, d, luck);
    var hold := HoldOps(d2, Applies(d), d.pending.Some?, luck);
    RunInParts(d, apply.ops, initialize.ops, hold);
    assert StartScript(d, luck).ops == apply.ops + (initialize.ops + hold);
  }

  lemma RestoredIsOpened(e: Disk, staged: Database)
    requires e.pending.None? && e.live == Some(staged) && e.wal.None?
    ensures Opened(e) == staged
  {
    assert Committed(e) == staged.commits;
  }

  lemma RefusedIsOpened(d: Disk, e: Disk)
    requires !Applies(d) && e == d.(marker := true, pending := None)
    ensures Opened(e) == Opened(d)
  {
    if d.live.Some? {
      assert Committed(e) == Committed(d);
    }
  }

  lemma AppliedIsOpened(d: Disk, luck: Luck)
    requires ApplyScript(d, luck).completes
    ensures var e := Run(d, ApplyScript(d, luck).ops);
            && Opened(e) == Opened(d)
            && (e.marker <==> d.pending.Some? || d.marker)
  {
    ApplyFollows(d, luck);
    var e := Run(d, ApplyScript(d, luck).ops);
    if Applies(d) {
      RestoredIsOpened(e, d.pending.value);
    } else if d.pending.Some? {
      RunThree(d, WriteMarker, RemovePending, WriteLog, luck.checkpoints);
      RefusedIsOpened(d, e);
    }
  }

  /** With nothing staged, a database that this app cannot open is left as it is, and
      the start does not finish. */
  lemma AnUnreadableDatabaseIsLeft(d: Disk, luck: Luck, life: nat)
    requires d.pending.None? && d.live.Some? && !Accepted(d.live.value)
    ensures !Finishes(d, luck, life) && AfterStart(d, luck, life) == d
  {
    assert StartScript(d, luck).ops == [];
  }

  /** With nothing staged, a start that finishes has copied a database of an older
      schema, its log folded in, before the upgrade, and then pruned; any other it
      copies not. */
  lemma AnUpgradeIsCopiedFirst(d: Disk, luck: Luck, life: nat)
    requires d.pending.None? && d.live.Some? && Finishes(d, luck, life)
    ensures var e := AfterStart(d, luck, life);
            if 0 < d.live.value.schema < STORAGE_SCHEMA_VERSION then
              var up := FirstFree(luck.upgradeNames, PreMigration, d.backups);
              && up.Some?
              && IsPrunedTo(d.backups[up.value := Database(true, d.live.value.schema, Committed(d))], e.backups)
            else e.backups == d.backups
  {
    FinishedBackups(d, luck, life);
    if 0 < d.live.value.schema < STORAGE_SCHEMA_VERSION {
      OpenedBackups(d, luck);
    } else {
      NotCopied(d, luck);
    }
  }

  // ----- When a start finishes

  /** One of the tries is free. */
  ghost predicate HasAFree(tries: seq<nat>, reason: Reason, taken: map<Name, Database>) {
    exists at :: at in tries && Name(reason, at) !in taken
  }

  lemma AsideFinishesIff(d: Disk, luck: Luck)
    ensures AsideScript(d, luck).completes <==> d.live.Some? ==> HasAFree(luck.replacedNames, Replaced, d.backups)
  {
  }

  lemma ApplyFinishesIff(d: Disk, luck: Luck)
    ensures ApplyScript(d, luck).completes
            <==> Applies(d) && d.live.Some? ==> HasAFree(luck.replacedNames, Replaced, d.backups)
  {
    AsideFinishesIff(d.(marker := true), luck);
  }

  /** Applying a restore takes no name that a copy before an upgrade could have. */
  lemma ApplyLeavesUpgradeNames(d: Disk, luck: Luck, at: nat)
    requires ApplyScript(d, luck).completes
    ensures Name(PreMigration, at) in Run(d, ApplyScript(d, luck).ops).backups
            <==> Name(PreMigration, at) in d.backups
  {
    if Applies(d) && d.live.Some? {
      AppliedBackups(d, luck);
    } else {
      BackupsLeft(d, ApplyScript(d, luck).ops);
    }
  }

  lemma OpenFinishesIff(d: Disk, luck: Luck)
    requires d.live.Some?
    ensures OpenScript(d, luck).completes
            <==> && Accepted(d.live.value)
                 && (0 < d.live.value.schema < STORAGE_SCHEMA_VERSION ==>
                       HasAFree(luck.upgradeNames, PreMigration, d.backups))
  {
  }

  lemma InitializeFinishesIff(d: Disk, luck: Luck)
    requires d.pending.None?
    ensures InitializeScript(d, luck).completes
            <==> && Accepted(Opened(d))
                 && (0 < Opened(d).schema < STORAGE_SCHEMA_VERSION ==>
                       HasAFree(luck.upgradeNames, PreMigration, d.backups))
  {
    if d.live.Some? {
      OpenFinishesIff(d, luck);
    } else {
      OpenFinishesIff(Do(d, CreateLive), luck);
    }
  }

  lemma StartFinishesByParts(d: Disk, luck: Luck)
    ensures var apply := ApplyScript(d, luck);
            StartScript(d, luck).completes
            <==> apply.completes && InitializeScript(Run(d, apply.ops), luck).completes
  {
    var apply := ApplyScript(d, luck);
    ApplyFollows(d, luck);
    if apply.completes {
      InitializeFollows(Run(d, apply.ops), luck);
    }
  }

  /** When nothing stops it, a start finishes if and only if the database it opens is
      sound and not of a newer schema, and there is a free name for each copy that it
      makes: the file that a restore moves aside, and one of an older schema. */
  lemma AStartFinishesIff(d: Disk, luck: Luck)
    ensures StartScript(d, luck).completes
            <==> && Accepted(Opened(d))
                 && (Applies(d) && d.live.Some? ==> HasAFree(luck.replacedNames, Replaced, d.backups))
                 && (0 < Opened(d).schema < STORAGE_SCHEMA_VERSION ==>
                       HasAFree(luck.upgradeNames, PreMigration, d.backups))
  {
    var apply := ApplyScript(d, luck);
    ApplyFinishesIff(d, luck);
    StartFinishesByParts(d, luck);
    if apply.completes {
      var d1 := Run(d, apply.ops);
      ApplyFollows(d, luck);
      AppliedIsOpened(d, luck);
      InitializeFinishesIff(d1, luck);
      forall at
        ensures Name(PreMigration, at) in d1.backups <==> Name(PreMigration, at) in d.backups
      {
        ApplyLeavesUpgradeNames(d, luck, at);
      }
    }
  }

  // ----- The marker

  /** A start that finishes leaves the marker if and only if a restore was found or
      owed and the marker cannot be removed. */
  lemma MarkerStaysIff(d: Disk, luck: Luck, life: nat)
    requires Finishes(d, luck, life)
    ensures AfterStart(d, luck, life).marker <==> (d.pending.Some? || d.marker) && !luck.removesMarker
  {
    StartFollows(d, luck);
  }

  // ----- The operator's word

  /** Nothing is owed and nothing is staged, and the operator has armed. */
  predicate IsArmed(d: Disk) { d.live.Some? && d.pending.None? && !d.marker && !Held(d) }

  /** No safe start, no restore staged, no change by which the operator disarms. */
  predicate IsPlain(e: Event) {
    match e
    case Start(luck, _) => !luck.safeStart
    case Changed(armed, _) => armed != Some(false)
    case Stage(_) => false
    case _ => true
  }

  predicate AllPlain(events: seq<Event>) { forall e | e in events :: IsPlain(e) }

  predicate NothingOwed(d: Disk) { d.live.Some? && d.pending.None? && !d.marker }

  lemma PlainStartOwesNothing(d: Disk, luck: Luck, life: nat)
    requires NothingOwed(d)
    ensures NothingOwed(AfterStart(d, luck, life))
  {
    StoppedKeeps(d, luck, life, NothingOwed);
  }

  lemma NextStaysArmed(w: World, e: Event)
    requires Enabled(w, e) && IsPlain(e) && IsArmed(w.disk)
    ensures IsArmed(Next(w, e).disk)
  {
    match e
    case Start(luck, life) =>
      PlainStartOwesNothing(w.disk, luck, life);
      PlainStartLeavesTheFlag(w.disk, luck, life);
    case Changed(armed, what) =>
      CommitAppends(w.disk, Change(armed, what));
    case Copy(name, life) =>
      StoppedCopyLeavesTheRest(w.disk, name, life);
      assert Committed(Next(w, e).disk) == Committed(w.disk);
    case Stage(_) =>
      assert false;
    case _ =>
      assert Committed(Next(w, e).disk) == Committed(w.disk);
  }

  lemma {:induction false} ArmedStays(w: World, events: seq<Event>)
    requires Possible(w, events) && AllPlain(events) && IsArmed(w.disk)
    ensures IsArmed(After(w, events).disk)
    decreases |events|
  {
    if |events| > 0 {
      assert events[0] in events;
      NextStaysArmed(w, events[0]);
      ArmedStays(Next(w, events[0]), events[1..]);
    }
  }

  /** The operator arms after a start that has finished. */
  function Rearmed(d: Disk, luck: Luck, life: nat, what: int): World {
    World(WithCommit(AfterStart(d, luck, life), Change(Some(true), what)), true, false)
  }

  /** Whatever restore a start found: once it has finished and its marker is gone, the
      operator's arming stands through every later start, however it stops, until one
      is a safe start, a restore is staged, or the operator disarms. */
  lemma ArmingStands(d: Disk, luck: Luck, life: nat, what: int, events: seq<Event>)
    requires Finishes(d, luck, life) && luck.removesMarker
    requires Possible(Rearmed(d, luck, life, what), events) && AllPlain(events)
    ensures var e := After(Rearmed(d, luck, life, what), events).disk; e.live.Some? && !e.marker && !Held(e)
  {
    StartFollows(d, luck);
    MarkerStaysIff(d, luck, life);
    CommitAppends(AfterStart(d, luck, life), Change(Some(true), what));
    ArmedStays(Rearmed(d, luck, life, what), events);
  }

  /** So the next start that finishes holds the outputs again if and only if it is a
      safe start, or a restore was found or owed and its marker stayed. */
  lemma TheNextStartHoldsIff(d: Disk, luck: Luck, life: nat, what: int, next: Luck, nextLife: nat)
    requires Finishes(d, luck, life)
    requires Finishes(Rearmed(d, luck, life, what).disk, next, nextLife)
    ensures Held(AfterStart(Rearmed(d, luck, life, what).disk, next, nextLife))
            <==> next.safeStart || ((d.pending.Some? || d.marker) && !luck.removesMarker)
  {
    var e := Rearmed(d, luck, life, what).disk;
    StartFollows(d, luck);
    MarkerStaysIff(d, luck, life);
    CommitAppends(AfterStart(d, luck, life), Change(Some(true), what));
    if e.marker || next.safeStart {
      StartFollows(e, next);
    } else {
      PlainStartLeavesTheFlag(e, next, nextLife);
    }
  }
}

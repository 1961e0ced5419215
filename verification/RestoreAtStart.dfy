/** The start itself, on the app-data folder it changes in place: each method
    stops where an operation fails, and leaves the disk its script says. */
module RestoreAtStart {
  import opened Common
  import opened Backups
  import opened Restore

  lemma StoppedLater(d: Disk, op: Op, rest: seq<Op>, life: nat)
    requires life > 0
    ensures Stopped(d, [op] + rest, life) == Stopped(Do(d, op), rest, life - 1)
  {
    var ops := [op] + rest;
    assert ops[1..] == rest;
    if life < |ops| {
      assert ops[..life][1..] == rest[..life - 1];
    }
  }

  lemma StoppedThen(d: Disk, first: seq<Op>, second: seq<Op>, life: nat)
    ensures Stopped(d, first + second, life)
            == if life < |first| then Stopped(d, first, life) else Stopped(Run(d, first), second, life - |first|)
    ensures |first| <= life ==> Stopped(d, first, life) == Run(d, first)
  {
    var ops := first + second;
    RunThen(d, first, second, true);
    if life < |first| {
      assert ops[..life] == first[..life];
    } else if life < |ops| {
      assert ops[..life] == first + second[..life - |first|];
      RunThen(d, first, second[..life - |first|], true);
    }
  }

  /** A script in two parts is stopped in the first, or reaches the second. */
  lemma StoppedScripts(d: Disk, first: Script, second: Script, life: nat)
    ensures var s := Then(first, second);
            if first.completes && |first.ops| <= life then
              && Stopped(d, first.ops, life) == Run(d, first.ops)
              && Stopped(d, s.ops, life) == Stopped(Run(d, first.ops), second.ops, life - |first.ops|)
              && |s.ops| == |first.ops| + |second.ops| && s.completes == second.completes
            else
              && Stopped(d, s.ops, life) == Stopped(d, first.ops, life)
              && !(s.completes && |s.ops| <= life)
              && (first.completes ==> life < |s.ops|)
  {
    StoppedThen(d, first.ops, second.ops, life);
  }

  lemma StoppedOne(d: Disk, op: Op, life: nat)
    ensures Stopped(d, [op], life) == if life == 0 then d else Do(d, op)
    ensures Run(d, [op]) == Do(d, op)
  {
    RunOne(d, op, true);
  }

  lemma StoppedTwo(d: Disk, a: Op, b: Op, life: nat)
    ensures Stopped(d, [a, b], life) == if life == 0 then d else if life == 1 then Do(d, a) else Do(Do(d, a), b)
  {
    assert [a, b] == [a] + [b];
    StoppedThen(d, [a], [b], life);
    StoppedOne(d, a, life);
    if life > 0 {
      StoppedOne(Do(d, a), b, life - 1);
    }
  }

  lemma StoppedThree(d: Disk, a: Op, b: Op, c: Op, life: nat)
    ensures Stopped(d, [a, b, c], life)
            == if life == 0 then d else if life == 1 then Do(d, a)
               else if life == 2 then Do(Do(d, a), b) else Do(Do(Do(d, a), b), c)
  {
    assert [a, b, c] == [a] + [b, c];
    StoppedThen(d, [a], [b, c], life);
    StoppedOne(d, a, life);
    if life > 0 {
      StoppedTwo(Do(d, a), b, c, life - 1);
    }
  }

  lemma OneRemoved(d: Disk, names: seq<Name>, i: nat, life: nat)
    requires i < |names| && InPruneOrder(d.backups, names[i..])
    ensures names[i] in d.backups && InPruneOrder(d.backups - {names[i]}, names[i + 1..])
    ensures Stopped(d, RemoveOps(names[i..]), life)
            == if life == 0 then d else Stopped(WithoutBackup(d, names[i]), RemoveOps(names[i + 1..]), life - 1)
  {
    assert names[i..][0] == names[i] && names[i..][1..] == names[i + 1..];
    assert RemoveOps(names[i..]) == [RemoveBackup(names[i])] + RemoveOps(names[i + 1..]);
    OneLess(d.backups, names[i..]);
    if life > 0 {
      StoppedLater(d, RemoveBackup(names[i]), RemoveOps(names[i + 1..]), life);
    }
  }

  lemma HoldOpsInParts(d: Disk, applied: bool, staged: bool, luck: Luck)
    requires d.live.Some?
    ensures var commit := LaunchCommit(ArmedBy(Committed(d)), applied, staged, d.marker, luck.safeStart);
            Script(HoldOps(d, applied, staged, luck), true)
            == Then(Script(SafeStartOps(luck), true),
                    Then(Script(CommitOps(commit), true), Script(UnmarkOps(d.marker, luck), true)))
  {
  }

  /** The app-data folder, and how many operations are left to the start before
      an error or a crash ends it. */
  class AppData {
    var marker: bool
    var pending: Option<Database>
    var live: Option<Database>
    var wal: Option<seq<Restore.Commit>>
    var shm: bool
    var backups: map<Name, Database>
    ghost var pruned: seq<Removed>
    var life: nat

    ghost function Now(): Disk
      reads this
    {
      Disk(marker, pending, live, wal, shm, backups, pruned)
    }

    /** A part of a start did what its script says, up to where it was stopped;
        it succeeded if and only if it reached the end. */
    twostate predicate Followed(script: Script, ok: bool)
      reads this
    {
      && Now() == Stopped(old(Now()), script.ops, old(life))
      && life == (if old(life) < |script.ops| then 0 else old(life) - |script.ops|)
      && ok == (script.completes && |script.ops| <= old(life))
    }

    // ----- The operations

    /** An operation is done whole, or not at all. */
    twostate predicate Done(op: Op, ok: bool)
      reads this
    {
      && ok == (old(life) > 0)
      && Now() == (if ok then Do(old(Now()), op) else old(Now()))
      && life == (if ok then old(life) - 1 else 0)
    }

    method WriteLog() returns (ok: bool)
      modifies this
      ensures Done(Op.WriteLog, ok)
    {
      if life == 0 { return false; }
      life := life - 1;
      ok := true;
    }

    method WriteMarker() returns (ok: bool)
      modifies this
      ensures Done(Op.WriteMarker, ok)
    {
      if life == 0 { return false; }
      marker, life := true, life - 1;
      ok := true;
    }

    method RemoveMarker() returns (ok: bool)
      modifies this
      ensures Done(Op.RemoveMarker, ok)
    {
      if life == 0 { return false; }
      marker, life := false, life - 1;
      ok := true;
    }

    method RemovePending() returns (ok: bool)
      modifies this
      ensures Done(Op.RemovePending, ok)
    {
      if life == 0 { return false; }
      pending, life := None, life - 1;
      ok := true;
    }

    /** Folds the log into the file: `wal_checkpoint(TRUNCATE)`. */
    method CheckpointLive() returns (ok: bool)
      requires live.Some?
      modifies this
      ensures Done(Checkpoint, ok)
    {
      if life == 0 { return false; }
      var log := if wal.Some? then wal.value else [];
      live := Some(live.value.(commits := live.value.commits + log));
      wal, shm, life := Some([]), true, life - 1;
      ok := true;
    }

    method MoveLiveAside(name: Name) returns (ok: bool)
      requires live.Some?
      modifies this
      ensures Done(MoveAside(name), ok)
    {
      if life == 0 { return false; }
      backups := backups[name := live.value];
      live, life := None, life - 1;
      ok := true;
    }

    method RemoveWalFile() returns (ok: bool)
      modifies this
      ensures Done(RemoveWal, ok)
    {
      if life == 0 { return false; }
      wal, life := None, life - 1;
      ok := true;
    }

    method RemoveShmFile() returns (ok: bool)
      modifies this
      ensures Done(RemoveShm, ok)
    {
      if life == 0 { return false; }
      shm, life := false, life - 1;
      ok := true;
    }

    method MovePendingIn() returns (ok: bool)
      modifies this
      ensures Done(MoveIn, ok)
    {
      if life == 0 { return false; }
      live, pending, life := pending, None, life - 1;
      ok := true;
    }

    /** A new file; SQLite takes away a log that is beside an empty one. */
    method Create() returns (ok: bool)
      modifies this
      ensures Done(CreateLive, ok)
    {
      if life == 0 { return false; }
      live, wal, life := Some(Database(true, 0, [])), None, life - 1;
      ok := true;
    }

    method BackUpLive(name: Name) returns (ok: bool)
      requires live.Some?
      modifies this
      ensures Done(BackUp(name), ok)
    {
      if life == 0 { return false; }
      var log := if wal.Some? then wal.value else [];
      backups := backups[name := Database(true, live.value.schema, live.value.commits + log)];
      life := life - 1;
      ok := true;
    }

    method RemoveOld(name: Name) returns (ok: bool)
      requires name in backups
      modifies this
      ensures Done(RemoveBackup(name), ok)
    {
      if life == 0 { return false; }
      pruned := pruned + [Removed(name, backups[name], Later(backups, name))];
      backups, life := backups - {name}, life - 1;
      ok := true;
    }

    /** One transaction, into the write-ahead log. */
    method CommitLive(c: Restore.Commit) returns (ok: bool)
      requires live.Some?
      modifies this
      ensures Done(Op.Commit(c), ok)
    {
      if life == 0 { return false; }
      var log := if wal.Some? then wal.value else [];
      wal, shm, life := Some(log + [c]), true, life - 1;
      if c.Upgrade? {
        live := Some(live.value.(schema := c.version));
      }
      ok := true;
    }

    // ----- The parts of a start

    method ReserveName(tries: seq<nat>, reason: Reason) returns (name: Option<Name>)
      ensures name == FirstFree(tries, reason, backups)
    {
      for i := 0 to |tries|
        invariant FirstFree(tries, reason, backups) == FirstFree(tries[i..], reason, backups)
      {
        if Name(reason, tries[i]) !in backups {
          return Some(Name(reason, tries[i]));
        }
      }
      name := None;
    }

    method ClearLive(luck: Luck) returns (ok: bool)
      modifies this
      ensures Followed(AsideScript(old(Now()), luck), ok)
    {
      if live.None? { return true; }
      ghost var fold := if luck.checkpoints then Checkpoint else Op.WriteLog;
      StoppedOne(Now(), fold, life);
      if luck.checkpoints {
        ok := CheckpointLive();
      } else {
        ok := WriteLog();
      }
      if !ok { return; }
      var name := ReserveName(luck.replacedNames, Replaced);
      if name.None? { return false; }
      StoppedTwo(old(Now()), fold, MoveAside(name.value), old(life));
      ok := MoveLiveAside(name.value);
    }

    method ClearSidecars() returns (ok: bool)
      modifies this
      ensures Followed(Script(SidecarOps(old(Now())), true), ok)
    {
      StoppedOne(Now(), RemoveWal, life);
      StoppedOne(Now(), RemoveShm, life);
      StoppedTwo(Now(), RemoveWal, RemoveShm, life);
      assert SidecarOps(Now()) == if wal.Some? && shm then [RemoveWal, RemoveShm]
                                  else if wal.Some? then [RemoveWal] else if shm then [RemoveShm] else [];
      ok := true;
      if wal.Some? {
        ok := RemoveWalFile();
        if !ok { return; }
      }
      if shm {
        ok := RemoveShmFile();
      }
    }

    /** The accepted file takes the live name. */
    method Accept(luck: Luck) returns (ok: bool)
      modifies this
      ensures Followed(AcceptScript(old(Now()), luck), ok)
    {
      ghost var d, aside := Now(), AsideScript(Now(), luck);
      ghost var d1 := Run(d, aside.ops);
      ghost var sidecars, last := SidecarOps(d1), [MoveIn, Op.WriteLog];
      StoppedThen(d, aside.ops, sidecars + last, life);
      ok := ClearLive(luck);
      if !ok { return; }
      StoppedThen(d1, sidecars, last, life);
      ok := ClearSidecars();
      if !ok { return; }
      StoppedTwo(Now(), MoveIn, Op.WriteLog, life);
      ok := MovePendingIn();
      if !ok { return; }
      ok := WriteLog();
    }

    /** `apply_pending_restore_at_start`: whether a restore was applied, or
        nothing when the start ends here. */
    method ApplyPendingRestore(luck: Luck) returns (applied: Option<bool>)
      modifies this
      ensures Followed(ApplyScript(old(Now()), luck), applied.Some?)
      ensures applied.Some? ==> applied.value == Applies(old(Now()))
    {
      if pending.None? { return Some(false); }
      ghost var d := Now();
      StoppedThree(d, Op.WriteMarker, Op.RemovePending, Op.WriteLog, life);
      StoppedThen(d, [Op.WriteMarker], AcceptScript(d.(marker := true), luck).ops, life);
      StoppedOne(d, Op.WriteMarker, life);
      var ok := WriteMarker();
      if !ok { return None; }
      var sound := pending.value.sound && pending.value.schema <= STORAGE_SCHEMA_VERSION;
      if !sound {
        ok := RemovePending();
        if !ok { return None; }
        ok := WriteLog();
        return if ok then Some(false) else None;
      }
      ok := Accept(luck);
      applied := if ok then Some(true) else None;
    }

    /** The steps of an upgrade, each its own transaction. */
    method Upgrade() returns (ok: bool)
      requires live.Some?
      modifies this
      ensures Followed(Script(UpgradeOps(old(live.value.schema)), true), ok)
      ensures ok ==> live.Some?
    {
      ok := true;
      ghost var ops := UpgradeOps(live.value.schema);
      while live.value.schema < STORAGE_SCHEMA_VERSION
        invariant live.Some? && ok
        invariant Stopped(Now(), UpgradeOps(live.value.schema), life) == Stopped(old(Now()), ops, old(life))
        invariant life + |ops| == old(life) + |UpgradeOps(live.value.schema)|
        decreases STORAGE_SCHEMA_VERSION - live.value.schema
      {
        var next := live.value.schema + 1;
        if life > 0 { StoppedLater(Now(), Op.Commit(Commit.Upgrade(next)), UpgradeOps(next), life); }
        ok := CommitLive(Commit.Upgrade(next));
        if !ok { return; }
      }
    }

    /** The first of `names` are removed, one after another. */
    method RemoveAll(names: seq<Name>) returns (ok: bool)
      requires InPruneOrder(backups, names)
      modifies this
      ensures Followed(Script(RemoveOps(names), true), ok)
      ensures live == old(live)
    {
      ok := true;
      ghost var d, start := Now(), life;
      for i := 0 to |names|
        invariant ok && life + i == start && live == old(live) && d == old(Now())
        invariant InPruneOrder(backups, names[i..])
        invariant Stopped(Now(), RemoveOps(names[i..]), life) == Stopped(d, RemoveOps(names), start)
      {
        OneRemoved(Now(), names, i, life);
        ok := RemoveOld(names[i]);
        if !ok { return; }
      }
      assert names[|names|..] == [];
    }

    /** `prune_snapshots`. */
    method PruneSnapshots() returns (ok: bool)
      modifies this
      ensures Followed(Script(RemoveOps(Pruned(old(backups))), true), ok)
      ensures live == old(live)
    {
      PrunedInOrder(backups);
      ok := RemoveAll(Pruned(backups));
    }

    method BackUpBeforeUpgrade(luck: Luck) returns (ok: bool)
      requires live.Some?
      modifies this
      ensures Followed(BackUpScript(old(Now()), luck), ok)
      ensures live == old(live)
    {
      if 0 < live.value.schema < STORAGE_SCHEMA_VERSION {
        var name := ReserveName(luck.upgradeNames, PreMigration);
        if name.None? { return false; }
        ghost var d := Now();
        StoppedOne(d, BackUp(name.value), life);
        StoppedThen(d, [BackUp(name.value)], RemoveOps(Pruned(Do(d, BackUp(name.value)).backups)), life);
        ok := BackUpLive(name.value);
        if !ok { return; }
        ok := PruneSnapshots();
      } else {
        ok := true;
      }
    }

    /** `migrate_schema`, after its guard and its copy. */
    method Migrate() returns (ok: bool)
      requires live.Some?
      modifies this
      ensures Followed(Script(MigrateOps(old(live.value.schema)), true), ok)
      ensures ok ==> live.Some?
    {
      ghost var d := Now();
      var schema := live.value.schema;
      if schema == 0 {
        StoppedOne(d, Op.Commit(Tables), life);
        StoppedThen(d, [Op.Commit(Tables)], UpgradeOps(schema), life);
        ok := CommitLive(Tables);
        if !ok { return; }
      } else {
        assert MigrateOps(schema) == UpgradeOps(schema);
      }
      ok := Upgrade();
    }

    /** The upgrade, the default settings and the log's line about them. */
    method MigrateAndSeed() returns (ok: bool)
      requires live.Some?
      modifies this
      ensures Followed(Script(MigrateOps(old(live.value.schema)) + [Op.Commit(Defaults), Op.WriteLog], true), ok)
    {
      StoppedThen(Now(), MigrateOps(live.value.schema), [Op.Commit(Defaults), Op.WriteLog], life);
      ok := Migrate();
      if !ok { return; }
      StoppedTwo(Now(), Op.Commit(Defaults), Op.WriteLog, life);
      ok := CommitLive(Defaults);
      if !ok { return; }
      ok := WriteLog();
    }

    method OpenLive(luck: Luck) returns (ok: bool)
      requires live.Some?
      modifies this
      ensures Followed(OpenScript(old(Now()), luck), ok)
    {
      if !live.value.sound || live.value.schema > STORAGE_SCHEMA_VERSION { return false; }
      ghost var rest := Script(MigrateOps(live.value.schema) + [Op.Commit(Defaults), Op.WriteLog], true);
      StoppedScripts(Now(), BackUpScript(Now(), luck), rest, life);
      ok := BackUpBeforeUpgrade(luck);
      if !ok { return; }
      ok := MigrateAndSeed();
    }

    /** `initialize_database`, and the log's line about it. */
    method InitializeDatabase(luck: Luck) returns (ok: bool)
      modifies this
      ensures Followed(InitializeScript(old(Now()), luck), ok)
    {
      if live.None? {
        ghost var d := Now();
        StoppedThen(d, [CreateLive], OpenScript(Do(d, CreateLive), luck).ops, life);
        StoppedOne(d, CreateLive, life);
        ok := Create();
        if !ok { return; }
      }
      ok := OpenLive(luck);
    }

    /** `hold_light_outputs_at_start`. */
    method HoldLightOutputs(applied: bool, staged: bool, luck: Luck) returns (ok: bool)
      requires live.Some?
      modifies this
      ensures Followed(Script(HoldOps(old(Now()), applied, staged, luck), true), ok)
    {
      ghost var d := Now();
      var stored := ReadArmed();
      var owed := marker;
      var launch := Decide(stored, applied, staged, owed, luck.safeStart);
      ghost var safeStart := Script(SafeStartOps(luck), true);
      ghost var written := Script(CommitOps(launch), true);
      ghost var unmarked := Script(UnmarkOps(owed, luck), true);
      HoldOpsInParts(d, applied, staged, luck);
      StoppedScripts(d, safeStart, Then(written, unmarked), life);
      ok := SaySafeStart(luck);
      if !ok { return; }
      StoppedScripts(d, written, unmarked, life);
      ok := WriteLaunch(launch);
      if !ok { return; }
      ok := Unmark(owed, luck);
    }

    method ReadArmed() returns (stored: bool)
      requires live.Some?
      ensures stored == ArmedBy(Committed(Now()))
    {
      var log := if wal.Some? then wal.value else [];
      stored := ArmedBy(live.value.commits + log);
    }

    method SaySafeStart(luck: Luck) returns (ok: bool)
      modifies this
      ensures Followed(Script(SafeStartOps(luck), true), ok)
    {
      StoppedOne(Now(), Op.WriteLog, life);
      ok := true;
      if luck.safeStart {
        ok := WriteLog();
      }
    }

    method WriteLaunch(launch: Option<Restore.Commit>) returns (ok: bool)
      requires live.Some?
      modifies this
      ensures Followed(Script(CommitOps(launch), true), ok)
    {
      ok := true;
      if launch.Some? {
        StoppedOne(Now(), Op.Commit(launch.value), life);
        ok := CommitLive(launch.value);
      }
    }

    /** The hold is written: the marker goes, or the log says that it stays. */
    method Unmark(owed: bool, luck: Luck) returns (ok: bool)
      modifies this
      ensures Followed(Script(UnmarkOps(owed, luck), true), ok)
    {
      StoppedOne(Now(), Op.RemoveMarker, life);
      StoppedOne(Now(), Op.WriteLog, life);
      ok := true;
      if owed {
        if luck.removesMarker {
          ok := RemoveMarker();
        } else {
          ok := WriteLog();
        }
      }
    }

    /** What this start writes about the light outputs, with the rows that say
        so. */
    method Decide(stored: bool, applied: bool, staged: bool, owed: bool, safeStart: bool)
      returns (launch: Option<Restore.Commit>)
      ensures launch == LaunchCommit(stored, applied, staged, owed, safeStart)
    {
      var armed, rows := stored, [];
      if applied {
        armed := false;
        rows := rows + [DatabaseRestored];
      } else if staged {
        armed := false;
        rows := rows + [RestoreRefused];
      } else if owed {
        armed := false;
        rows := rows + [RestoreUnfinished];
      }
      assert rows == RestoreRows(applied, staged, owed);
      if safeStart {
        if armed {
          rows := rows + [OutputsHeld];
        }
        armed := false;
      }
      assert rows + [] == rows;
      if armed != stored || rows != [] {
        launch := Some(Launch(if armed == stored then None else Some(armed), rows));
      } else {
        launch := None;
      }
    }

    /** The start's part that touches the saved data, from the staged file to
        the hold: it leaves what its script says at the moment it stopped. */
    method Start(luck: Luck) returns (ok: bool)
      modifies this
      ensures Now() == AfterStart(old(Now()), luck, old(life))
      ensures ok == Finishes(old(Now()), luck, old(life))
    {
      ghost var d := Now();
      ghost var apply := ApplyScript(d, luck);
      ghost var d1 := Run(d, apply.ops);
      ghost var initialize := InitializeScript(d1, luck);
      ghost var hold := HoldScript(Run(d1, initialize.ops), Applies(d), d.pending.Some?, luck);
      StoppedScripts(d, apply, Then(initialize, hold), life);
      var staged := pending.Some?;
      var applied := ApplyPendingRestore(luck);
      if applied.None? { return false; }
      ApplyFollows(d, luck);
      InitializeFollows(d1, luck);
      StoppedScripts(d1, initialize, hold, life);
      ok := InitializeDatabase(luck);
      if !ok { return; }
      ok := HoldLightOutputs(applied.value, staged, luck);
    }
  }
}

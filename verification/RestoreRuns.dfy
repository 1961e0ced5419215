/** Whole runs of the app: starts that may stop anywhere, changes and copies while
    it runs, restores staged, files damaged. */
module RestoreRuns {
  import opened Common
  import opened Backups
  import opened Restore

  datatype Event =
    | Start(luck: Luck, life: nat)
    | Stop
    | Changed(armed: Option<bool>, what: int)
    | Fold
    | Copy(name: Name, life: nat)
    | Stage(staged: Database)
    | Damage

  /** `found`: a start has found a staged restore, and the operator has not
      armed the light outputs since. */
  datatype World = World(disk: Disk, running: bool, found: bool)

  /** A restore is staged by a running app or by the recovery screen. */
  predicate Enabled(w: World, e: Event) {
    match e
    case Start(_, _) => !w.running
    case Stop => w.running
    case Changed(_, _) => w.running && w.disk.live.Some?
    case Fold => w.running
    case Copy(name, _) =>
      && w.running && w.disk.live.Some? && name !in w.disk.backups
      && name.reason in {Daily, Shutdown, PreRestore}
    case Stage(_) => true
    case Damage => w.disk.live.Some?
  }

  function Next(w: World, e: Event): World
    requires Enabled(w, e)
  {
    match e
    case Start(luck, life) =>
      World(AfterStart(w.disk, luck, life), Finishes(w.disk, luck, life), w.found || w.disk.pending.Some?)
    case Stop => w.(running := false)
    case Changed(armed, what) =>
      w.(disk := WithCommit(w.disk, Change(armed, what)), found := w.found && armed != Some(true))
    case Fold => w.(disk := Do(w.disk, Checkpoint))
    case Copy(name, life) => w.(disk := Stopped(w.disk, CopyOps(w.disk, name), life))
    case Stage(staged) => w.(disk := w.disk.(pending := Some(staged)))
    case Damage => w.(disk := w.disk.(live := Some(w.disk.live.value.(sound := false))))
  }

  predicate Possible(w: World, events: seq<Event>)
    decreases |events|
  {
    |events| == 0 || (Enabled(w, events[0]) && Possible(Next(w, events[0]), events[1..]))
  }

  function After(w: World, events: seq<Event>): World
    requires Possible(w, events)
    decreases |events|
  {
    if |events| == 0 then w else After(Next(w, events[0]), events[1..])
  }

  // ----- A restore comes back held

  /** What carries the hold from the start that found a restore to the one that
      writes it: the staged file, then the marker, then the hold itself. */
  predicate HoldIsCarried(d: Disk) { d.pending.Some? || d.marker || Held(d) }

  predicate HoldInvariant(w: World) {
    && (w.running ==> w.disk.live.Some?)
    && (w.found ==> HoldIsCarried(w.disk) && (w.running ==> Held(w.disk)))
  }

  lemma OpCarriesHold(d: Disk, op: Op, folds: bool)
    requires Allowed(d, op, folds) && HoldIsCarried(d)
    ensures HoldIsCarried(Do(d, op))
  {
    if op.Commit? {
      CommitAppends(d, op.commit);
    } else if d.live.Some? && LeavesContents(op) {
      ContentsLeft(d, op);
    }
  }

  lemma OpNeverArms(d: Disk, op: Op, folds: bool)
    requires Allowed(d, op, folds) && Held(d) && Do(d, op).live.Some? && !op.MoveIn?
    ensures Held(Do(d, op))
  {
    if op.Commit? {
      CommitAppends(d, op.commit);
    } else if LeavesContents(op) {
      ContentsLeft(d, op);
    }
  }

  lemma StoppedCarriesHold(d: Disk, luck: Luck, life: nat)
    requires HoldIsCarried(d)
    ensures HoldIsCarried(AfterStart(d, luck, life))
  {
    forall e, op | Allowed(e, op, luck.checkpoints) && HoldIsCarried(e)
      ensures HoldIsCarried(Do(e, op))
    {
      OpCarriesHold(e, op, luck.checkpoints);
    }
    StoppedKeeps(d, luck, life, HoldIsCarried);
  }

  /** Where a held database can be while a start runs: still live, or on its
      way aside for a restore that is accepted. */
  predicate HeldOrReplaced(d: Disk, e: Disk) {
    || (Applies(d) && e.pending.None?)
    || (Applies(d) && e.pending == d.pending && (e.live.Some? ==> Held(e)))
    || (!Applies(d) && (e.pending == d.pending || e.pending.None?) && Held(e))
  }

  lemma OpKeepsHeldOrReplaced(d: Disk, e: Disk, op: Op, folds: bool)
    requires Allowed(e, op, folds) && HeldOrReplaced(d, e)
    ensures HeldOrReplaced(d, Do(e, op))
  {
    if Held(e) && Do(e, op).live.Some? && !op.MoveIn? {
      OpNeverArms(e, op, folds);
    }
  }

  /** No start turns a held database that it neither replaced nor created to
      armed, wherever it stops. */
  lemma NoStartArms(d: Disk, luck: Luck, life: nat)
    requires Held(d)
    ensures var e := AfterStart(d, luck, life);
            e.live.Some? && !(Applies(d) && e.pending.None?) ==> Held(e)
  {
    forall e, op | Allowed(e, op, luck.checkpoints) && HeldOrReplaced(d, e)
      ensures HeldOrReplaced(d, Do(e, op))
    {
      OpKeepsHeldOrReplaced(d, e, op, luck.checkpoints);
    }
    StoppedKeeps(d, luck, life, e => HeldOrReplaced(d, e));
  }

  lemma FinishedStartHolds(d: Disk, luck: Luck, life: nat)
    requires Finishes(d, luck, life) && (HoldIsCarried(d) || luck.safeStart)
    ensures Held(AfterStart(d, luck, life))
  {
    StartFollows(d, luck);
    if d.pending.None? && !d.marker && !luck.safeStart {
      NoStartArms(d, luck, life);
    }
  }

  /** A copy and its prune leave all but the backups as it is, wherever they stop. */
  lemma {:induction false} CopyingLeavesTheRest(d: Disk, ops: seq<Op>)
    requires forall op | op in ops :: op.BackUp? || op.RemoveBackup?
    ensures var e := Run(d, ops); e == d.(backups := e.backups, pruned := e.pruned)
    decreases |ops|
  {
    if |ops| > 0 {
      assert ops[0] in ops && forall op | op in ops[1..] :: op in ops;
      CopyingLeavesTheRest(Do(d, ops[0]), ops[1..]);
    }
  }

  lemma StoppedCopyLeavesTheRest(d: Disk, name: Name, life: nat)
    ensures var e := Stopped(d, CopyOps(d, name), life); e == d.(backups := e.backups, pruned := e.pruned)
  {
    var ops := CopyOps(d, name);
    CopyingLeavesTheRest(d, if life < |ops| then ops[..life] else ops);
  }

  lemma NextKeepsHold(w: World, e: Event)
    requires Enabled(w, e) && HoldInvariant(w)
    ensures HoldInvariant(Next(w, e))
  {
    match e
    case Start(luck, life) =>
      StartFollows(w.disk, luck);
      if Next(w, e).found {
        StoppedCarriesHold(w.disk, luck, life);
        if Finishes(w.disk, luck, life) {
          FinishedStartHolds(w.disk, luck, life);
        }
      }
    case Changed(armed, what) =>
      CommitAppends(w.disk, Change(armed, what));
    case Fold =>
      assert Committed(Next(w, e).disk) == Committed(w.disk);
    case Copy(name, life) =>
      StoppedCopyLeavesTheRest(w.disk, name, life);
      assert Committed(Next(w, e).disk) == Committed(w.disk);
    case _ =>
      if w.disk.live.Some? {
        assert Committed(Next(w, e).disk) == Committed(w.disk);
      }
  }

  /** In every run, however its starts stop: once a start has found a staged
      restore, the app never runs with the light outputs armed until the
      operator arms them. */
  lemma {:induction false} HeldUntilArmed(w: World, events: seq<Event>)
    requires Possible(w, events) && HoldInvariant(w)
    ensures HoldInvariant(After(w, events))
    ensures var end := After(w, events); end.found && end.running ==> Held(end.disk)
    decreases |events|
  {
    if |events| > 0 {
      NextKeepsHold(w, events[0]);
      HeldUntilArmed(Next(w, events[0]), events[1..]);
    }
  }

  /** The run of every machine begins with nothing found. */
  lemma EveryRunBegins(disk: Disk)
    ensures HoldInvariant(World(disk, false, false))
  {
  }

  // ----- The operator's word stands

  predicate Quiet(op: Op) {
    || op.WriteLog?
    || op.BackUp?
    || op.RemoveBackup?
    || (op.Commit? && OfAStart(op.commit) && SetBy(op.commit).None?)
  }

  predicate AllQuiet(ops: seq<Op>) { forall op | op in ops :: Quiet(op) }

  lemma {:induction false} QuietRunKeepsFlag(d: Disk, ops: seq<Op>)
    requires d.live.Some? && AllQuiet(ops)
    ensures Run(d, ops).live.Some? && Held(Run(d, ops)) == Held(d)
    decreases |ops|
  {
    if |ops| > 0 {
      var op := ops[0];
      assert op in ops && Quiet(op);
      if op.Commit? {
        CommitAppends(d, op.commit);
      } else {
        ContentsLeft(d, op);
      }
      QuietRunKeepsFlag(Do(d, op), ops[1..]);
    }
  }

  lemma {:induction false} UpgradeIsQuiet(schema: nat)
    ensures AllQuiet(UpgradeOps(schema))
    decreases STORAGE_SCHEMA_VERSION - schema
  {
    if schema < STORAGE_SCHEMA_VERSION {
      UpgradeIsQuiet(schema + 1);
    }
  }

  lemma InitializeIsQuiet(d: Disk, luck: Luck)
    requires d.live.Some?
    ensures AllQuiet(InitializeScript(d, luck).ops)
  {
    MigrateIsQuiet(d.live.value.schema);
    var name := FirstFree(luck.upgradeNames, PreMigration, d.backups);
    if name.Some? {
      CopyIsQuiet(d, name.value);
    }
    assert AllQuiet([Commit(Defaults), WriteLog]);
    BothQuiet(MigrateOps(d.live.value.schema), [Commit(Defaults), WriteLog]);
    BothQuiet(BackUpScript(d, luck).ops, MigrateOps(d.live.value.schema) + [Commit(Defaults), WriteLog]);
  }

  lemma BothQuiet(a: seq<Op>, b: seq<Op>)
    requires AllQuiet(a) && AllQuiet(b)
    ensures AllQuiet(a + b)
  {
  }

  lemma MigrateIsQuiet(schema: nat)
    ensures AllQuiet(MigrateOps(schema))
  {
    UpgradeIsQuiet(schema);
  }

  lemma CopyIsQuiet(d: Disk, name: Name)
    ensures AllQuiet(CopyOps(d, name))
  {
  }

  /** A start with nothing staged, nothing owed and no safe start leaves the
      flag as the operator left it, wherever it stops. */
  lemma PlainStartLeavesTheFlag(d: Disk, luck: Luck, life: nat)
    requires d.live.Some? && d.pending.None? && !d.marker && !luck.safeStart
    ensures Held(AfterStart(d, luck, life)) == Held(d)
  {
    var ops := StartScript(d, luck).ops;
    var initialize := InitializeScript(d, luck);
    InitializeIsQuiet(d, luck);
    InitializeFollows(d, luck);
    var e := Run(d, initialize.ops);
    LaunchHolds(e, false, false, e.marker, luck.safeStart);
    assert ops == initialize.ops;
    QuietRunKeepsFlag(d, if life < |ops| then ops[..life] else ops);
  }

  // ----- Nothing committed is lost

  /** The transactions `c` are in the live database or in a backup. */
  ghost predicate Keeps(d: Disk, c: seq<Commit>) {
    || (d.live.Some? && c <= Committed(d))
    || exists name :: name in d.backups && c <= d.backups[name].commits
  }

  /** A copy with `c` was removed by a prune, when as many copies of its reason as
      are kept had later names. */
  ghost predicate WasPruned(d: Disk, c: seq<Commit>) {
    exists i :: 0 <= i < |d.pruned| && IsPruned(d.pruned[i], c)
  }

  predicate IsPruned(removed: Removed, c: seq<Commit>) {
    c <= removed.database.commits && removed.later >= Retention(removed.name.reason)
  }

  ghost predicate IsAccountedFor(d: Disk, c: seq<Commit>) { Keeps(d, c) || WasPruned(d, c) }

  lemma PrunedStays(d: Disk, e: Disk, c: seq<Commit>)
    requires WasPruned(d, c) && d.pruned <= e.pruned
    ensures WasPruned(e, c)
  {
    var i :| 0 <= i < |d.pruned| && IsPruned(d.pruned[i], c);
    assert e.pruned[i] == d.pruned[i];
  }

  lemma OpKeeps(d: Disk, op: Op, c: seq<Commit>)
    requires Allowed(d, op, true) && Keeps(d, c)
    ensures IsAccountedFor(Do(d, op), c)
  {
    var e := Do(d, op);
    if d.live.Some? && c <= Committed(d) {
      if op.Commit? {
        CommitAppends(d, op.commit);
      } else if op.MoveAside? {
        assert e.backups[op.name].commits == Committed(d);
      } else if LeavesContents(op) {
        ContentsLeft(d, op);
      }
    } else {
      var name :| name in d.backups && c <= d.backups[name].commits;
      if op == RemoveBackup(name) {
        assert IsPruned(e.pruned[|d.pruned|], c);
      } else {
        assert name in e.backups && e.backups[name] == d.backups[name];
      }
    }
  }

  lemma OpAccounts(d: Disk, op: Op, c: seq<Commit>)
    requires Allowed(d, op, true) && IsAccountedFor(d, c)
    ensures IsAccountedFor(Do(d, op), c)
  {
    if WasPruned(d, c) {
      PrunedStays(d, Do(d, op), c);
    } else {
      OpKeeps(d, op, c);
    }
  }

  lemma StartAccounts(d: Disk, luck: Luck, life: nat, c: seq<Commit>)
    requires IsAccountedFor(d, c) && luck.checkpoints
    ensures IsAccountedFor(AfterStart(d, luck, life), c)
  {
    forall d, op | Allowed(d, op, true) && IsAccountedFor(d, c)
      ensures IsAccountedFor(Do(d, op), c)
    {
      OpAccounts(d, op, c);
    }
    StoppedKeeps(d, luck, life, d => IsAccountedFor(d, c));
  }

  lemma CopyAccounts(d: Disk, name: Name, life: nat, c: seq<Commit>)
    requires IsAccountedFor(d, c) && d.live.Some? && name !in d.backups
    ensures IsAccountedFor(Stopped(d, CopyOps(d, name), life), c)
  {
    forall d, op | Allowed(d, op, true) && IsAccountedFor(d, c)
      ensures IsAccountedFor(Do(d, op), c)
    {
      OpAccounts(d, op, c);
    }
    CopyFollows(d, name, true);
    StoppedOpsKeep(d, CopyOps(d, name), life, true, d => IsAccountedFor(d, c));
  }

  lemma NextAccounts(w: World, e: Event, c: seq<Commit>)
    requires Enabled(w, e) && IsAccountedFor(w.disk, c) && (e.Start? ==> e.luck.checkpoints)
    ensures IsAccountedFor(Next(w, e).disk, c)
  {
    match e
    case Start(luck, life) => StartAccounts(w.disk, luck, life, c);
    case Copy(name, life) => CopyAccounts(w.disk, name, life, c);
    case Changed(armed, what) =>
      CommitAppends(w.disk, Change(armed, what));
      KeptByMore(w.disk, Next(w, e).disk, c);
    case _ =>
      KeptByMore(w.disk, Next(w, e).disk, c);
  }

  lemma KeptByMore(d: Disk, e: Disk, c: seq<Commit>)
    requires IsAccountedFor(d, c) && e.backups == d.backups && e.pruned == d.pruned
    requires d.live.Some? ==> e.live.Some? && Committed(d) <= Committed(e)
    ensures IsAccountedFor(e, c)
  {
    if WasPruned(d, c) {
      PrunedStays(d, e, c);
    } else if !(d.live.Some? && c <= Committed(d)) {
      var name :| name in d.backups && c <= d.backups[name].commits;
      assert name in e.backups;
    }
  }

  predicate AllCheckpoint(events: seq<Event>) { forall e | e in events :: e.Start? ==> e.luck.checkpoints }

  lemma {:induction false} RunAccounts(w: World, events: seq<Event>, c: seq<Commit>)
    requires Possible(w, events) && AllCheckpoint(events) && IsAccountedFor(w.disk, c)
    ensures IsAccountedFor(After(w, events).disk, c)
    decreases |events|
  {
    if |events| > 0 {
      NextAccounts(w, events[0], c);
      RunAccounts(Next(w, events[0]), events[1..], c);
    }
  }

  /** In every run whose checkpoints succeed, what the live database held at any
      moment is for ever after in the live database or in a backup, wherever the
      starts and the copies after it stop, unless a prune removed the backup with
      it; and then as many copies of its reason as are kept had later names. */
  lemma NothingCommittedIsLost(w: World, events: seq<Event>, c: seq<Commit>)
    requires Possible(w, events) && AllCheckpoint(events)
    requires (w.disk.live.Some? && c == Committed(w.disk)) || Keeps(w.disk, c)
    ensures IsAccountedFor(After(w, events).disk, c)
    ensures After(w, events).disk.pruned == [] ==> Keeps(After(w, events).disk, c)
  {
    RunAccounts(w, events, c);
  }

  // ----- What a prune takes

  /** A copy of a running app and its prune, let finish: a backup is there after
      it if and only if it was there before, or is the copy, and fewer copies of
      its reason than are kept have later names. It is as it was, and the copy is
      sound and holds all that was committed. */
  lemma ACopyStaysIff(d: Disk, name: Name, life: nat, n: Name)
    requires d.live.Some? && name !in d.backups && |CopyOps(d, name)| <= life
    ensures var e := Stopped(d, CopyOps(d, name), life);
            var copied := d.backups[name := Database(true, d.live.value.schema, Committed(d))];
            && (n in e.backups <==> n in copied && Later(copied, n) < Retention(n.reason))
            && (n in e.backups ==> e.backups[n] == copied[n])
  {
    CopyFollows(d, name, true);
  }

  predicate LeavesBackups(op: Op) { !op.MoveAside? && !op.BackUp? && !op.RemoveBackup? }

  lemma {:induction false} BackupsLeft(d: Disk, ops: seq<Op>)
    requires forall op | op in ops :: LeavesBackups(op)
    ensures Run(d, ops).backups == d.backups
    decreases |ops|
  {
    if |ops| > 0 {
      assert LeavesBackups(ops[0]);
      BackupsLeft(Do(d, ops[0]), ops[1..]);
    }
  }

  /** The file that goes aside: with its log folded in, if it could be. */
  function AsideFile(d: Disk, luck: Luck): Database
    requires d.live.Some?
  {
    if luck.checkpoints then Folded(d).live.value else d.live.value
  }

  /** The replaced database is aside, under the first free name. */
  lemma AppliedBackups(d: Disk, luck: Luck)
    requires Applies(d) && d.live.Some? && ApplyScript(d, luck).completes
    ensures var name := FirstFree(luck.replacedNames, Replaced, d.backups);
            && name.Some?
            && Run(d, ApplyScript(d, luck).ops).backups == d.backups[name.value := AsideFile(d, luck)]
  {
    var marked := d.(marker := true);
    AcceptedBackups(marked, luck);
    RunOne(d, WriteMarker, true);
    RunThen(d, [WriteMarker], AcceptScript(marked, luck).ops, true);
  }

  lemma AsideBackups(d: Disk, luck: Luck)
    requires d.live.Some? && AsideScript(d, luck).completes
    ensures var name := FirstFree(luck.replacedNames, Replaced, d.backups);
            && name.Some?
            && Run(d, AsideScript(d, luck).ops).backups == d.backups[name.value := AsideFile(d, luck)]
  {
    var name := FirstFree(luck.replacedNames, Replaced, d.backups).value;
    if luck.checkpoints {
      RunTwo(d, Checkpoint, MoveAside(name), true);
    } else {
      RunTwo(d, WriteLog, MoveAside(name), true);
    }
  }

  lemma AcceptedBackups(d: Disk, luck: Luck)
    requires d.marker && Applies(d) && d.live.Some? && AcceptScript(d, luck).completes
    ensures var name := FirstFree(luck.replacedNames, Replaced, d.backups);
            && name.Some?
            && Run(d, AcceptScript(d, luck).ops).backups == d.backups[name.value := AsideFile(d, luck)]
  {
    var aside := AsideScript(d, luck);
    AsideBackups(d, luck);
    var d1 := Run(d, aside.ops);
    BackupsLeft(d1, SidecarOps(d1) + [MoveIn, WriteLog]);
    RunThen(d, aside.ops, SidecarOps(d1) + [MoveIn, WriteLog], true);
  }

  lemma OpenedBackups(d: Disk, luck: Luck)
    requires d.live.Some? && d.pending.None? && Accepted(d.live.value)
    requires 0 < d.live.value.schema < STORAGE_SCHEMA_VERSION
    requires OpenScript(d, luck).completes
    ensures var up := FirstFree(luck.upgradeNames, PreMigration, d.backups);
            && up.Some?
            && IsPrunedTo(d.backups[up.value := SnapshotOf(d)], Run(d, OpenScript(d, luck).ops).backups)
    ensures Run(d, OpenScript(d, luck).ops).live.Some?
  {
    OpenFollows(d, luck);
    CopyFollows(d, FirstFree(luck.upgradeNames, PreMigration, d.backups).value, true);
  }

  /** The hold comes after the last copy. */
  lemma FinishedBackups(d: Disk, luck: Luck, life: nat)
    requires Finishes(d, luck, life)
    ensures ApplyScript(d, luck).completes
    ensures var d1 := Run(d, ApplyScript(d, luck).ops);
            && InitializeScript(d1, luck).completes
            && AfterStart(d, luck, life).backups == Run(d1, InitializeScript(d1, luck).ops).backups
  {
    var apply := ApplyScript(d, luck);
    ApplyFollows(d, luck);
    var d1 := Run(d, apply.ops);
    var initialize := InitializeScript(d1, luck);
    InitializeFollows(d1, luck);
    var d2 := Run(d1, initialize.ops);
    HoldLeavesBackups(d2, Applies(d), d.pending.Some?, luck);
    var hold := HoldOps(d2, Applies(d), d.pending.Some?, luck);
    RunInParts(d, apply.ops, initialize.ops, hold);
    assert StartScript(d, luck).ops == apply.ops + (initialize.ops + hold);
  }

  lemma HoldLeavesBackups(d: Disk, applied: bool, staged: bool, luck: Luck)
    requires d.live.Some?
    ensures Run(d, HoldOps(d, applied, staged, luck)).backups == d.backups
  {
    BackupsLeft(d, HoldOps(d, applied, staged, luck));
  }

  lemma RunInParts(d: Disk, a: seq<Op>, b: seq<Op>, c: seq<Op>)
    ensures Run(d, a + (b + c)) == Run(Run(Run(d, a), b), c)
  {
    RunThen(Run(d, a), b, c, true);
    RunThen(d, a, b + c, true);
  }

  /** A restored database of an older schema is copied before its upgrade, and the
      backups are pruned. */
  predicate Upgrades(d: Disk)
    requires d.pending.Some?
  {
    0 < d.pending.value.schema < STORAGE_SCHEMA_VERSION
  }

  function CopyOf(db: Database): Database { Database(true, db.schema, db.commits) }

  lemma NotCopied(d: Disk, luck: Luck)
    requires d.live.Some? && d.pending.None? && Accepted(d.live.value)
    requires !(0 < d.live.value.schema < STORAGE_SCHEMA_VERSION)
    ensures Run(d, OpenScript(d, luck).ops).backups == d.backups
  {
    OpenFollows(d, luck);
  }

  /** What a start that restores leaves in the backups: those there were, and the
      file that went aside; or what a prune leaves of them and of the restored
      one's copy before its upgrade. */
  lemma RestoredBackups(d: Disk, luck: Luck, life: nat)
    requires Applies(d) && d.live.Some? && Finishes(d, luck, life)
    ensures var name, e := FirstFree(luck.replacedNames, Replaced, d.backups), AfterStart(d, luck, life);
            && name.Some?
            && var aside := d.backups[name.value := AsideFile(d, luck)];
            if !Upgrades(d) then e.backups == aside
            else
              var up := FirstFree(luck.upgradeNames, PreMigration, aside);
              && up.Some?
              && IsPrunedTo(aside[up.value := CopyOf(d.pending.value)], e.backups)
  {
    FinishedBackups(d, luck, life);
    AppliedBackups(d, luck);
    ApplyFollows(d, luck);
    var d1 := Run(d, ApplyScript(d, luck).ops);
    assert Committed(d1) == d.pending.value.commits;
    if Upgrades(d) {
      OpenedBackups(d1, luck);
    } else {
      NotCopied(d1, luck);
    }
  }

  lemma LaterAsBefore(backups: map<Name, Database>, name: Name, db: Database, up: Name, copy: Database)
    requires name !in backups && up.reason != name.reason
    ensures Later(backups[name := db][up := copy], name) == |LaterThan(Moments(backups, name.reason), name.at)|
  {
    var copied := backups[name := db][up := copy];
    forall m
      ensures m in Moments(copied, name.reason) <==> m in Moments(backups, name.reason) || m == name.at
    {
      assert m in Moments(copied, name.reason) <==> Name(name.reason, m) in copied;
      assert m in Moments(backups, name.reason) <==> Name(name.reason, m) in backups;
    }
    assert LaterThan(Moments(copied, name.reason), name.at) == LaterThan(Moments(backups, name.reason), name.at);
  }

  /** A start that restores and finishes keeps the file that it moved aside if and
      only if it upgrades nothing, or fewer than five replaced copies have later
      names. */
  lemma AStartKeepsItsCopyIff(d: Disk, luck: Luck, life: nat)
    requires Applies(d) && d.live.Some? && Finishes(d, luck, life)
    ensures var name, e := FirstFree(luck.replacedNames, Replaced, d.backups), AfterStart(d, luck, life);
            && name.Some?
            && (name.value in e.backups
                <==> (Upgrades(d) ==> |LaterThan(Moments(d.backups, Replaced), name.value.at)| < 5))
            && (name.value in e.backups ==> e.backups[name.value] == AsideFile(d, luck))
  {
    RestoredBackups(d, luck, life);
    if Upgrades(d) {
      var name := FirstFree(luck.replacedNames, Replaced, d.backups).value;
      var aside := AsideFile(d, luck);
      var up := FirstFree(luck.upgradeNames, PreMigration, d.backups[name := aside]).value;
      LaterAsBefore(d.backups, name, aside, up, CopyOf(d.pending.value));
    }
  }

  /** What was committed is nowhere else: not in a backup, and not part of what a
      start makes of the staged file. */
  ghost predicate IsOnlyLive(d: Disk, staged: Database)
    requires d.live.Some?
  {
    var c := Committed(d);
    && (forall name | name in d.backups :: !(c <= d.backups[name].commits))
    && !(c <= staged.commits)
    && !(staged.commits <= c && forall i | |staged.commits| <= i < |c| :: OfAStart(c[i]))
  }

  lemma FinishedIsRestored(d: Disk, luck: Luck, life: nat)
    requires Applies(d) && Finishes(d, luck, life)
    ensures Restored(AfterStart(d, luck, life), d.pending.value)
  {
    StartKeepsRestoring(d, luck, life, d.pending.value);
    StartFollows(d, luck);
  }

  lemma PrefixOfRestored(e: Disk, staged: Database, c: seq<Commit>)
    requires Restored(e, staged) && c <= Committed(e)
    ensures c <= staged.commits || (staged.commits <= c && forall i | |staged.commits| <= i < |c| :: OfAStart(c[i]))
  {
    assert forall i | 0 <= i < |c| :: c[i] == Committed(e)[i];
  }

  /** Of all the backups such a start leaves, only the file that went aside can hold
      what was nowhere else. */
  lemma OnlyTheCopyHolds(d: Disk, luck: Luck, life: nat, n: Name)
    requires Applies(d) && d.live.Some? && Finishes(d, luck, life) && IsOnlyLive(d, d.pending.value)
    requires n in AfterStart(d, luck, life).backups
    requires Committed(d) <= AfterStart(d, luck, life).backups[n].commits
    ensures Some(n) == FirstFree(luck.replacedNames, Replaced, d.backups)
  {
    RestoredBackups(d, luck, life);
  }

  lemma AsideFileHoldsIff(d: Disk, luck: Luck)
    requires d.live.Some?
    ensures Committed(d) <= AsideFile(d, luck).commits <==> luck.checkpoints || Log(d) == []
  {
    assert |Committed(d)| == |d.live.value.commits| + |Log(d)|;
  }

  /** What a start replaces, and is nowhere else, is kept by every start that
      finishes if and only if two things hold: its checkpoint succeeds or the log
      holds nothing, and it upgrades nothing or fewer than five replaced copies have
      later names. */
  lemma AStartKeepsWhatItReplacesIff(d: Disk, luck: Luck, life: nat)
    requires Applies(d) && d.live.Some? && Finishes(d, luck, life) && IsOnlyLive(d, d.pending.value)
    ensures var name := FirstFree(luck.replacedNames, Replaced, d.backups);
            && name.Some?
            && (Keeps(AfterStart(d, luck, life), Committed(d))
                <==> && (luck.checkpoints || Log(d) == [])
                     && (Upgrades(d) ==>
                           |LaterThan(Moments(d.backups, Replaced), name.value.at)| < 5))
  {
    var e := AfterStart(d, luck, life);
    AStartKeepsItsCopyIff(d, luck, life);
    AsideFileHoldsIff(d, luck);
    FinishedIsRestored(d, luck, life);
    if Committed(d) <= Committed(e) {
      PrefixOfRestored(e, d.pending.value, Committed(d));
    }
    if Keeps(e, Committed(d)) {
      var n :| n in e.backups && Committed(d) <= e.backups[n].commits;
      OnlyTheCopyHolds(d, luck, life, n);
    }
  }

  /** Five replaced copies of later names than the clock's. */
  function FiveReplaced(db: Database): map<Name, Database> {
    map[Name(Replaced, 11) := db, Name(Replaced, 12) := db, Name(Replaced, 13) := db,
        Name(Replaced, 14) := db, Name(Replaced, 15) := db]
  }

  lemma FiveAreLater(db: Database)
    ensures |LaterThan(Moments(FiveReplaced(db), Replaced), 1)| == 5
  {
    var backups := FiveReplaced(db);
    assert forall m :: m in Moments(backups, Replaced) <==> Name(Replaced, m) in backups;
    assert LaterThan(Moments(backups, Replaced), 1) == {11, 12, 13, 14, 15};
  }

  lemma FirstTryIsFree(tries: seq<nat>, reason: Reason, taken: map<Name, Database>)
    requires |tries| > 0 && Name(reason, tries[0]) !in taken
    ensures FirstFree(tries, reason, taken) == Some(Name(reason, tries[0])) && tries[0] in tries
  {
  }

  /** A folder with such copies, and a start that restores schema 9. */
  lemma AClockSetBack() returns (d: Disk, luck: Luck)
    ensures Applies(d) && d.live.Some? && d.pending.value.schema == 9 && IsOnlyLive(d, d.pending.value)
    ensures luck.checkpoints && NamesAreFree(d, luck)
    ensures var name := FirstFree(luck.replacedNames, Replaced, d.backups);
            name == Some(Name(Replaced, 1)) && |LaterThan(Moments(d.backups, Replaced), 1)| == 5
  {
    var empty := Database(true, 10, []);
    var tries: Names := seq(RESERVE_TRIES, _ => 1);
    d := Disk(false, Some(Database(true, 9, [])), Some(Database(true, 10, [Change(None, 1)])), None, false,
              FiveReplaced(empty), []);
    luck := Luck(false, true, tries, tries, true);
    FiveAreLater(empty);
    FirstTryIsFree(tries, Replaced, d.backups);
    FirstTryIsFree(tries, PreMigration, d.backups);
    assert Committed(d) == [Change(None, 1)] && !OfAStart(Committed(d)[0]);
  }

  /** A start with a checkpoint that succeeds, and what was committed is lost. */
  ghost predicate Loses(d: Disk, luck: Luck, life: nat) {
    && d.live.Some? && Finishes(d, luck, life) && luck.checkpoints
    && !Keeps(AfterStart(d, luck, life), Committed(d)) && WasPruned(AfterStart(d, luck, life), Committed(d))
  }

  lemma FiveLaterCopiesLoseIt(d: Disk, luck: Luck, name: Name)
    requires Applies(d) && d.live.Some? && Upgrades(d) && IsOnlyLive(d, d.pending.value)
    requires luck.checkpoints && NamesAreFree(d, luck)
    requires FirstFree(luck.replacedNames, Replaced, d.backups) == Some(name)
    requires |LaterThan(Moments(d.backups, Replaced), name.at)| >= Retention(Replaced)
    ensures Loses(d, luck, |StartScript(d, luck).ops|)
  {
    var life := |StartScript(d, luck).ops|;
    StartCompletes(d, luck, d.pending.value);
    AStartKeepsWhatItReplacesIff(d, luck, life);
    assert Keeps(d, Committed(d));
    StartAccounts(d, luck, life, Committed(d));
  }

  lemma AStartMayPruneItsOwnCopy()
    ensures exists d: Disk, luck: Luck, life: nat :: Loses(d, luck, life)
  {
    var d, luck := AClockSetBack();
    FiveLaterCopiesLoseIt(d, luck, Name(Replaced, 1));
  }

  /** What a failed checkpoint costs, exactly: the copy aside holds everything
      that was committed if and only if the log held nothing. */
  lemma FailedCheckpointLosesTheLog(d: Disk, luck: Luck)
    requires d.live.Some? && d.marker && Applies(d) && !luck.checkpoints
    requires AsideScript(d, luck).completes
    ensures var e := Run(d, AsideScript(d, luck).ops);
            exists name :: && name in e.backups && name !in d.backups
                           && e.backups == d.backups[name := e.backups[name]]
                           && (Committed(d) <= e.backups[name].commits <==> Log(d) == [])
  {
    var name := FirstFree(luck.replacedNames, Replaced, d.backups).value;
    RunTwo(d, WriteLog, MoveAside(name), false);
    var e := Run(d, AsideScript(d, luck).ops);
    assert e.backups[name].commits == d.live.value.commits;
  }

  /** So a start that upgrades nothing, and so copies and prunes nothing, keeps it if
      and only if its checkpoint succeeds or the log holds nothing. */
  lemma AStartKeepsTheLogIff(d: Disk, luck: Luck, life: nat)
    requires Applies(d) && d.live.Some? && !Upgrades(d)
    requires Finishes(d, luck, life) && IsOnlyLive(d, d.pending.value)
    ensures Keeps(AfterStart(d, luck, life), Committed(d)) <==> luck.checkpoints || Log(d) == []
  {
    AStartKeepsWhatItReplacesIff(d, luck, life);
  }

  /** A folder with one change in the log, and a start that restores schema 10 and
      cannot checkpoint: the change is lost. */
  lemma AFailedCheckpointMayLoseAChange()
    ensures exists d: Disk, luck: Luck, life: nat :: d.live.Some? && Finishes(d, luck, life)
              && d.backups == map[] && !Keeps(AfterStart(d, luck, life), Committed(d))
  {
    var d, luck := AChangeInTheLog();
    var life := |StartScript(d, luck).ops|;
    StartCompletes(d, luck, d.pending.value);
    AStartKeepsTheLogIff(d, luck, life);
  }

  lemma AChangeInTheLog() returns (d: Disk, luck: Luck)
    ensures Applies(d) && d.live.Some? && d.pending.value.schema == STORAGE_SCHEMA_VERSION
    ensures IsOnlyLive(d, d.pending.value) && d.backups == map[] && Log(d) != []
    ensures !luck.checkpoints && NamesAreFree(d, luck)
  {
    var tries: Names := seq(RESERVE_TRIES, _ => 1);
    var empty := Database(true, 10, []);
    d := Disk(false, Some(empty), Some(empty), Some([Change(None, 1)]), true, map[], []);
    luck := Luck(false, false, tries, tries, true);
    FirstTryIsFree(tries, Replaced, d.backups);
    FirstTryIsFree(tries, PreMigration, d.backups);
    assert Committed(d) == [Change(None, 1)] && !OfAStart(Committed(d)[0]);
  }

  // ----- The restore is reached

  /** The live database holds the staged contents, and after them nothing but
      what starts write: nothing of the old log. */
  predicate Restored(d: Disk, staged: Database) {
    && d.pending.None? && d.live.Some? && Accepted(d.live.value)
    && staged.commits <= Committed(d)
    && forall i | |staged.commits| <= i < |Committed(d)| :: OfAStart(Committed(d)[i])
  }

  predicate Restoring(d: Disk, staged: Database) { d.pending == Some(staged) || Restored(d, staged) }

  lemma OpKeepsRestoring(d: Disk, op: Op, folds: bool, staged: Database)
    requires Accepted(staged) && Allowed(d, op, folds) && Restoring(d, staged)
    ensures Restoring(Do(d, op), staged)
  {
    var e := Do(d, op);
    if op.MoveIn? {
      assert Committed(e) == staged.commits;
    } else if op.Commit? {
      CommitAppends(d, op.commit);
    } else if d.live.Some? && LeavesContents(op) {
      ContentsLeft(d, op);
    }
  }

  /** A start, and then another after it stopped, and so on. */
  function Restarts(d: Disk, starts: seq<(Luck, nat)>): Disk {
    if |starts| == 0 then d
    else
      var last := starts[|starts| - 1];
      AfterStart(Restarts(d, starts[..|starts| - 1]), last.0, last.1)
  }

  lemma {:induction false} RestartsKeepRestoring(d: Disk, starts: seq<(Luck, nat)>, staged: Database)
    requires Accepted(staged) && Restoring(d, staged)
    ensures Restoring(Restarts(d, starts), staged)
  {
    if |starts| > 0 {
      var last := starts[|starts| - 1];
      RestartsKeepRestoring(d, starts[..|starts| - 1], staged);
      StartKeepsRestoring(Restarts(d, starts[..|starts| - 1]), last.0, last.1, staged);
    }
  }

  lemma StartKeepsRestoring(d: Disk, luck: Luck, life: nat, staged: Database)
    requires Accepted(staged) && Restoring(d, staged)
    ensures Restoring(AfterStart(d, luck, life), staged)
  {
    forall e, op | Allowed(e, op, luck.checkpoints) && Restoring(e, staged)
      ensures Restoring(Do(e, op), staged)
    {
      OpKeepsRestoring(e, op, luck.checkpoints, staged);
    }
    StoppedKeeps(d, luck, life, e => Restoring(e, staged));
  }

  /** Names are to be had for the copies a start makes. */
  ghost predicate NamesAreFree(d: Disk, luck: Luck) {
    && (exists at :: at in luck.replacedNames && Name(Replaced, at) !in d.backups)
    && (exists at :: at in luck.upgradeNames && Name(PreMigration, at) !in d.backups)
  }

  lemma AsideCompletes(d: Disk, luck: Luck, free: nat)
    requires d.marker && Applies(d) && Name(PreMigration, free) !in d.backups
    requires exists at :: at in luck.replacedNames && Name(Replaced, at) !in d.backups
    ensures AsideScript(d, luck).completes && Name(PreMigration, free) !in Run(d, AsideScript(d, luck).ops).backups
  {
    var aside := AsideScript(d, luck);
    if d.live.Some? {
      RunTwo(d, aside.ops[0], aside.ops[1], luck.checkpoints);
    }
  }

  lemma ApplyCompletes(d: Disk, luck: Luck)
    requires NamesAreFree(d, luck)
    ensures ApplyScript(d, luck).completes
    ensures exists at :: at in luck.upgradeNames && Name(PreMigration, at) !in Run(d, ApplyScript(d, luck).ops).backups
  {
    var free :| free in luck.upgradeNames && Name(PreMigration, free) !in d.backups;
    if Applies(d) {
      AcceptCompletes(d.(marker := true), luck, free);
      RunOne(d, WriteMarker, luck.checkpoints);
      RunThen(d, [WriteMarker], AcceptScript(d.(marker := true), luck).ops, luck.checkpoints);
    } else if d.pending.Some? {
      RunThree(d, WriteMarker, RemovePending, WriteLog, luck.checkpoints);
    }
  }

  lemma AcceptCompletes(d: Disk, luck: Luck, free: nat)
    requires d.marker && Applies(d) && Name(PreMigration, free) !in d.backups
    requires exists at :: at in luck.replacedNames && Name(Replaced, at) !in d.backups
    ensures AcceptScript(d, luck).completes && Name(PreMigration, free) !in Run(d, AcceptScript(d, luck).ops).backups
  {
    AsideCompletes(d, luck, free);
    AsideFollows(d, luck);
    var aside := AsideScript(d, luck);
    var d1 := Run(d, aside.ops);
    SidecarsFollow(d1, luck.checkpoints);
    RunTwo(Run(d1, SidecarOps(d1)), MoveIn, WriteLog, luck.checkpoints);
    RunThen(d1, SidecarOps(d1), [MoveIn, WriteLog], luck.checkpoints);
    RunThen(d, aside.ops, SidecarOps(d1) + [MoveIn, WriteLog], luck.checkpoints);
  }

  lemma StartCompletes(d: Disk, luck: Luck, staged: Database)
    requires Accepted(staged) && Restoring(d, staged) && NamesAreFree(d, luck)
    ensures StartScript(d, luck).completes
  {
    ApplyCompletes(d, luck);
    ApplyFollows(d, luck);
    var d1 := Run(d, ApplyScript(d, luck).ops);
    InitializeFollows(d1, luck);
  }

  /** A staged restore that is accepted is reached: wherever the starts before
      it stopped, the staged contents are at one of the two names, which are
      never both empty; and the next start that is let finish leaves them at
      the live name, with nothing of the old log after them, and held. */
  lemma RestoreIsReached(d: Disk, starts: seq<(Luck, nat)>, luck: Luck, life: nat, staged: Database)
    requires d.pending == Some(staged) && Accepted(staged)
    ensures var e := Restarts(d, starts);
            && Restoring(e, staged) && (e.pending.Some? || e.live.Some?)
            && (NamesAreFree(e, luck) && |StartScript(e, luck).ops| <= life ==>
                  && Finishes(e, luck, life)
                  && Restored(AfterStart(e, luck, life), staged)
                  && Held(AfterStart(e, luck, life)))
  {
    var e := Restarts(d, starts);
    RestartsKeepRestoring(d, starts, staged);
    RestartsCarryHold(d, starts);
    if NamesAreFree(e, luck) && |StartScript(e, luck).ops| <= life {
      StartCompletes(e, luck, staged);
      StartFollows(e, luck);
      assert (starts + [(luck, life)])[..|starts|] == starts;
      RestartsKeepRestoring(d, starts + [(luck, life)], staged);
      FinishedStartHolds(e, luck, life);
    }
  }

  lemma {:induction false} RestartsCarryHold(d: Disk, starts: seq<(Luck, nat)>)
    requires HoldIsCarried(d)
    ensures HoldIsCarried(Restarts(d, starts))
  {
    if |starts| > 0 {
      var last := starts[|starts| - 1];
      RestartsCarryHold(d, starts[..|starts| - 1]);
      StoppedCarriesHold(Restarts(d, starts[..|starts| - 1]), last.0, last.1);
    }
  }

  // ----- A refused restore

  predicate KeptAsItWas(d: Disk, e: Disk)
    requires d.live.Some?
  {
    && (e.pending == d.pending || e.pending.None?)
    && e.live.Some? && Committed(d) <= Committed(e)
    && forall i | |Committed(d)| <= i < |Committed(e)| :: OfAStart(Committed(e)[i])
  }

  /** A staged file that fails its check never costs the live database
      anything, wherever the start stops. */
  lemma RefusedRestoreKeepsTheDatabase(d: Disk, luck: Luck, life: nat)
    requires d.live.Some? && d.pending.Some? && !Accepted(d.pending.value)
    ensures KeptAsItWas(d, AfterStart(d, luck, life))
  {
    forall e, op | Allowed(e, op, luck.checkpoints) && KeptAsItWas(d, e)
      ensures KeptAsItWas(d, Do(e, op))
    {
      if op.Commit? {
        CommitAppends(e, op.commit);
      } else if LeavesContents(op) {
        ContentsLeft(e, op);
      }
    }
    StoppedKeeps(d, luck, life, e => KeptAsItWas(d, e));
  }
}

/** A database restore at the start, as the disk sees it: what a start writes,
    renames and removes, in order. An error or a crash may fall between any two
    of these operations, so a start is a script of them, and it may stop after
    any. */
module Restore {
  import opened Common
  import opened Backups

  /** A row of the action log that a start writes. */
  datatype LaunchRow = DatabaseRestored | RestoreRefused | RestoreUnfinished | OutputsHeld

  /** One transaction: a new database's first tables, a step of an upgrade, the
      default settings, the light outputs' decision at the start, or a change
      while the app runs. */
  datatype Commit =
    | Tables
    | Upgrade(version: nat)
    | Defaults
    | Launch(armed: Option<bool>, rows: seq<LaunchRow>)
    | Change(armed: Option<bool>, what: int)

  /** A database file: whether SQLite finds it sound, its schema, and the
      transactions folded into it, oldest first. */
  datatype Database = Database(sound: bool, schema: nat, commits: seq<Commit>)

  /** A copy that a prune removed, and how many of its reason had later names. */
  datatype Removed = Removed(name: Name, database: Database, later: nat)

  /** The app-data folder: the restore's marker, the staged file, the live
      database with its write-ahead log and shared memory, and the backups.
      `pruned` is history: the copies removed so far. */
  datatype Disk = Disk(
    marker: bool,
    pending: Option<Database>,
    live: Option<Database>,
    wal: Option<seq<Commit>>,
    shm: bool,
    backups: map<Name, Database>,
    pruned: seq<Removed>)

  const STORAGE_SCHEMA_VERSION: nat := 10
  const RESERVE_TRIES: nat := 50

  /** The names the clock gives, one for each try. */
  type Names = s: seq<nat> | |s| == RESERVE_TRIES witness seq(RESERVE_TRIES, _ => 0)

  /** What a start meets and does not decide. */
  datatype Luck = Luck(
    safeStart: bool,
    checkpoints: bool,
    replacedNames: Names,
    upgradeNames: Names,
    removesMarker: bool)

  // ----- What a disk holds

  function Log(d: Disk): seq<Commit> { if d.wal.Some? then d.wal.value else [] }

  /** What a reader of the live database sees: the file, then its log. */
  function Committed(d: Disk): seq<Commit>
    requires d.live.Some?
  {
    d.live.value.commits + Log(d)
  }

  function SetBy(c: Commit): Option<bool> {
    match c
    case Launch(armed, _) => armed
    case Change(armed, _) => armed
    case _ => None
  }

  /** `lighting_output_armed`: the flag last written; armed when there is none. */
  function ArmedBy(commits: seq<Commit>): bool {
    if |commits| == 0 then true
    else
      var last := SetBy(commits[|commits| - 1]);
      if last.Some? then last.value else ArmedBy(commits[..|commits| - 1])
  }

  predicate Held(d: Disk) { d.live.Some? && !ArmedBy(Committed(d)) }

  /** The check of a staged file: a function of its contents. */
  predicate Accepted(db: Database) { db.sound && db.schema <= STORAGE_SCHEMA_VERSION }

  // ----- The operations

  /** One write, rename, removal or transaction: done whole or not at all. */
  datatype Op =
    | WriteLog
    | WriteMarker
    | RemoveMarker
    | RemovePending
    | Checkpoint
    | MoveAside(name: Name)
    | RemoveWal
    | RemoveShm
    | MoveIn
    | CreateLive
    | BackUp(name: Name)
    | RemoveBackup(name: Name)
    | Commit(commit: Commit)

  function Do(d: Disk, op: Op): Disk {
    match op
    case WriteLog => d
    case WriteMarker => d.(marker := true)
    case RemoveMarker => d.(marker := false)
    case RemovePending => d.(pending := None)
    case Checkpoint => if d.live.Some? then Folded(d) else d
    case MoveAside(name) => if d.live.Some? then d.(live := None, backups := d.backups[name := d.live.value]) else d
    case RemoveWal => d.(wal := None)
    case RemoveShm => d.(shm := false)
    case MoveIn => d.(live := d.pending, pending := None)
    case CreateLive => d.(live := Some(Database(true, 0, [])), wal := None)
    case BackUp(name) => if d.live.Some? then d.(backups := d.backups[name := SnapshotOf(d)]) else d
    case RemoveBackup(name) => if name in d.backups then WithoutBackup(d, name) else d
    case Commit(commit) => WithCommit(d, commit)
  }

  function WithoutBackup(d: Disk, name: Name): Disk
    requires name in d.backups
  {
    d.(backups := d.backups - {name}, pruned := d.pruned + [Removed(name, d.backups[name], Later(d.backups, name))])
  }

  function Folded(d: Disk): Disk
    requires d.live.Some?
  {
    d.(live := Some(d.live.value.(commits := Committed(d))), wal := Some([]), shm := true)
  }

  /** A verified copy of the live database, its log folded in. */
  function SnapshotOf(d: Disk): Database
    requires d.live.Some?
  {
    Database(true, d.live.value.schema, Committed(d))
  }

  function WithCommit(d: Disk, c: Commit): Disk {
    var e := d.(wal := Some(Log(d) + [c]), shm := true);
    if c.Upgrade? && d.live.Some? then e.(live := Some(d.live.value.(schema := c.version))) else e
  }

  function Run(d: Disk, ops: seq<Op>): Disk
    decreases |ops|
  {
    if |ops| == 0 then d else Run(Do(d, ops[0]), ops[1..])
  }

  /** `reserve_snapshot_path`: the first name of the tries that is free. */
  function FirstFree(tries: seq<nat>, reason: Reason, taken: map<Name, Database>): (name: Option<Name>)
    ensures name.Some? ==> name.value.reason == reason && name.value.at in tries && name.value !in taken
    ensures name.Some? ==>
              exists i :: && 0 <= i < |tries| && name.value.at == tries[i]
                          && forall j :: 0 <= j < i ==> Name(reason, tries[j]) in taken
    ensures name.None? <==> forall at :: at in tries ==> Name(reason, at) in taken
  {
    if |tries| == 0 then None
    else if Name(reason, tries[0]) !in taken then Some(Name(reason, tries[0]))
    else FirstFree(tries[1..], reason, taken)
  }

  /** The operations of a start, in order; `completes` is false when it ends
      with an error of its own after the last. */
  datatype Script = Script(ops: seq<Op>, completes: bool)

  function Then(first: Script, second: Script): Script {
    if first.completes then Script(first.ops + second.ops, second.completes) else first
  }

  // ----- `apply_pending_restore_at_start`

  /** The live database out of the way: checkpointed if it can be (else the log
      says so), then renamed to a free backup name. */
  function AsideScript(d: Disk, luck: Luck): Script {
    if d.live.None? then Script([], true)
    else
      var fold := if luck.checkpoints then Checkpoint else WriteLog;
      var name := FirstFree(luck.replacedNames, Replaced, d.backups);
      if name.None? then Script([fold], false) else Script([fold, MoveAside(name.value)], true)
  }

  function SidecarOps(d: Disk): seq<Op> {
    (if d.wal.Some? then [RemoveWal] else []) + (if d.shm then [RemoveShm] else [])
  }

  function AcceptScript(d: Disk, luck: Luck): Script {
    var aside := AsideScript(d, luck);
    Then(aside, Script(SidecarOps(Run(d, aside.ops)) + [MoveIn, WriteLog], true))
  }

  function ApplyScript(d: Disk, luck: Luck): Script {
    if d.pending.None? then Script([], true)
    else if !Accepted(d.pending.value) then Script([WriteMarker, RemovePending, WriteLog], true)
    else Then(Script([WriteMarker], true), AcceptScript(d.(marker := true), luck))
  }

  // ----- `initialize_database`

  function UpgradeOps(schema: nat): seq<Op>
    decreases STORAGE_SCHEMA_VERSION - schema
  {
    if schema >= STORAGE_SCHEMA_VERSION then [] else [Commit(Upgrade(schema + 1))] + UpgradeOps(schema + 1)
  }

  /** The steps from a schema to this app's; a new database gets its tables
      first. */
  function MigrateOps(schema: nat): seq<Op> { (if schema == 0 then [Commit(Tables)] else []) + UpgradeOps(schema) }

  function RemoveOps(names: seq<Name>): seq<Op> { seq(|names|, i requires 0 <= i < |names| => RemoveBackup(names[i])) }

  /** `snapshot_database_with`: a copy, then a prune of every reason's. */
  function CopyOps(d: Disk, name: Name): seq<Op> { [BackUp(name)] + RemoveOps(Pruned(Do(d, BackUp(name)).backups)) }

  /** The copy made before an existing database is upgraded. */
  function BackUpScript(d: Disk, luck: Luck): Script
    requires d.live.Some?
  {
    if 0 < d.live.value.schema < STORAGE_SCHEMA_VERSION then
      var name := FirstFree(luck.upgradeNames, PreMigration, d.backups);
      if name.None? then Script([], false) else Script(CopyOps(d, name.value), true)
    else Script([], true)
  }

  function OpenScript(d: Disk, luck: Luck): Script
    requires d.live.Some?
  {
    if !Accepted(d.live.value) then Script([], false)
    else
      Then(BackUpScript(d, luck),
           Script(MigrateOps(d.live.value.schema) + [Commit(Defaults), WriteLog], true))
  }

  function InitializeScript(d: Disk, luck: Luck): Script {
    if d.live.None? then Then(Script([CreateLive], true), OpenScript(Do(d, CreateLive), luck))
    else OpenScript(d, luck)
  }

  // ----- `hold_light_outputs_at_start`

  function RestoreRows(applied: bool, staged: bool, owed: bool): seq<LaunchRow> {
    if applied then [DatabaseRestored]
    else if staged then [RestoreRefused]
    else if owed then [RestoreUnfinished]
    else []
  }

  /** What the start writes about the light outputs; nothing when nothing
      changes and there is nothing to say. */
  function LaunchCommit(stored: bool, applied: bool, staged: bool, owed: bool, safeStart: bool): Option<Commit> {
    var restored := RestoreRows(applied, staged, owed);
    var armed := stored && restored == [];
    var rows := restored + (if safeStart && armed then [OutputsHeld] else []);
    var final := armed && !safeStart;
    if final != stored || rows != [] then
      Some(Launch(if final == stored then None else Some(final), rows))
    else None
  }

  function SafeStartOps(luck: Luck): seq<Op> { if luck.safeStart then [WriteLog] else [] }

  function CommitOps(commit: Option<Commit>): seq<Op> { if commit.Some? then [Commit(commit.value)] else [] }

  function UnmarkOps(owed: bool, luck: Luck): seq<Op> {
    if !owed then [] else if luck.removesMarker then [RemoveMarker] else [WriteLog]
  }

  function HoldOps(d: Disk, applied: bool, staged: bool, luck: Luck): seq<Op>
    requires d.live.Some?
  {
    var commit := LaunchCommit(ArmedBy(Committed(d)), applied, staged, d.marker, luck.safeStart);
    SafeStartOps(luck) + CommitOps(commit) + UnmarkOps(d.marker, luck)
  }

  // ----- A start

  /** Whether the start's restore is applied, rather than refused or absent. */
  predicate Applies(d: Disk) { d.pending.Some? && Accepted(d.pending.value) }

  function HoldScript(d: Disk, applied: bool, staged: bool, luck: Luck): Script {
    if d.live.None? then Script([], false) else Script(HoldOps(d, applied, staged, luck), true)
  }

  function StartScript(d: Disk, luck: Luck): Script {
    var apply := ApplyScript(d, luck);
    var d1 := Run(d, apply.ops);
    var initialize := InitializeScript(d1, luck);
    var d2 := Run(d1, initialize.ops);
    Then(apply, Then(initialize, HoldScript(d2, Applies(d), d.pending.Some?, luck)))
  }

  /** The disk a start leaves that ends, by an error or a crash, after `life`
      operations. */
  function Stopped(d: Disk, ops: seq<Op>, life: nat): Disk {
    Run(d, if life < |ops| then ops[..life] else ops)
  }

  predicate Finishes(d: Disk, luck: Luck, life: nat) {
    var s := StartScript(d, luck);
    s.completes && |s.ops| <= life
  }

  function AfterStart(d: Disk, luck: Luck, life: nat): Disk { Stopped(d, StartScript(d, luck).ops, life) }

  // ----- The protocol: when an operation may be done

  /** `folds` says that no checkpoint of the start failed. */
  predicate Allowed(d: Disk, op: Op, folds: bool) {
    match op
    case WriteLog => true
    case WriteMarker => d.pending.Some?
    case RemoveMarker => d.pending.None? && Held(d)
    case RemovePending => d.marker && d.pending.Some? && !Accepted(d.pending.value)
    case Checkpoint => d.marker && Applies(d)
    case MoveAside(name) => d.marker && Applies(d) && name !in d.backups && (folds && d.live.Some? ==> Log(d) == [])
    case RemoveWal => d.marker && Applies(d) && d.live.None?
    case RemoveShm => d.marker && Applies(d) && d.live.None?
    case MoveIn => d.marker && Applies(d) && d.live.None? && d.wal.None? && !d.shm
    case CreateLive => d.pending.None? && d.live.None?
    case BackUp(name) => name !in d.backups
    case RemoveBackup(name) => name in d.backups && IsSurplus(d.backups, name)
    case Commit(commit) => d.pending.None? && d.live.Some? && OfAStart(commit)
  }

  /** A start's own transaction: never a change of the operator's, and it never
      arms. */
  predicate OfAStart(c: Commit) {
    && !c.Change?
    && SetBy(c) != Some(true)
    && (c.Upgrade? ==> c.version <= STORAGE_SCHEMA_VERSION)
  }

  predicate Follows(d: Disk, ops: seq<Op>, folds: bool)
    decreases |ops|
  {
    |ops| == 0 || (Allowed(d, ops[0], folds) && Follows(Do(d, ops[0]), ops[1..], folds))
  }

  lemma {:induction false} RunThen(d: Disk, first: seq<Op>, second: seq<Op>, folds: bool)
    ensures Run(d, first + second) == Run(Run(d, first), second)
    ensures Follows(d, first, folds) && Follows(Run(d, first), second, folds) ==> Follows(d, first + second, folds)
    ensures Follows(d, first + second, folds) ==> Follows(d, first, folds)
    decreases |first|
  {
    if |first| == 0 {
      assert first + second == second;
    } else {
      assert (first + second)[1..] == first[1..] + second;
      RunThen(Do(d, first[0]), first[1..], second, folds);
    }
  }

  lemma RunOne(d: Disk, a: Op, folds: bool)
    ensures Run(d, [a]) == Do(d, a) && Follows(d, [a], folds) == Allowed(d, a, folds)
  {
    assert [a][1..] == [];
  }

  lemma RunTwo(d: Disk, a: Op, b: Op, folds: bool)
    ensures Run(d, [a, b]) == Do(Do(d, a), b)
    ensures Follows(d, [a, b], folds) == (Allowed(d, a, folds) && Allowed(Do(d, a), b, folds))
  {
    assert [a, b][1..] == [b];
    RunOne(Do(d, a), b, folds);
  }

  lemma RunThree(d: Disk, a: Op, b: Op, c: Op, folds: bool)
    ensures Run(d, [a, b, c]) == Do(Do(Do(d, a), b), c)
    ensures Follows(d, [a, b, c], folds)
            == (Allowed(d, a, folds) && Allowed(Do(d, a), b, folds) && Allowed(Do(Do(d, a), b), c, folds))
  {
    assert [a, b, c][1..] == [b, c];
    RunTwo(Do(d, a), b, c, folds);
  }

  lemma AsideFollows(d: Disk, luck: Luck)
    requires d.marker && Applies(d)
    ensures var aside := AsideScript(d, luck);
            && Follows(d, aside.ops, luck.checkpoints)
            && var e := Run(d, aside.ops);
            && e.marker && e.pending == d.pending
            && (aside.completes ==> e.live.None?)
  {
    if d.live.Some? {
      var fold := if luck.checkpoints then Checkpoint else WriteLog;
      RunOne(d, fold, luck.checkpoints);
      var name := FirstFree(luck.replacedNames, Replaced, d.backups);
      if name.Some? {
        RunTwo(d, fold, MoveAside(name.value), luck.checkpoints);
      }
    }
  }

  lemma SidecarsFollow(d: Disk, folds: bool)
    requires d.marker && Applies(d) && d.live.None?
    ensures Follows(d, SidecarOps(d), folds)
    ensures Run(d, SidecarOps(d)) == d.(wal := None, shm := false)
  {
    RunOne(d, RemoveWal, folds);
    RunOne(d, RemoveShm, folds);
    RunTwo(d, RemoveWal, RemoveShm, folds);
  }

  lemma AcceptFollows(d: Disk, luck: Luck)
    requires d.marker && Applies(d)
    ensures var s := AcceptScript(d, luck);
            && Follows(d, s.ops, luck.checkpoints)
            && var e := Run(d, s.ops);
            && e.marker
            && (s.completes ==> e.pending.None? && e.live == d.pending && e.wal.None?)
  {
    var aside := AsideScript(d, luck);
    AsideFollows(d, luck);
    if aside.completes {
      var d1 := Run(d, aside.ops);
      var sidecars := SidecarOps(d1);
      SidecarsFollow(d1, luck.checkpoints);
      RunTwo(Run(d1, sidecars), MoveIn, WriteLog, luck.checkpoints);
      RunThen(d1, sidecars, [MoveIn, WriteLog], luck.checkpoints);
      RunThen(d, aside.ops, sidecars + [MoveIn, WriteLog], luck.checkpoints);
    }
  }

  lemma ApplyFollows(d: Disk, luck: Luck)
    ensures var s := ApplyScript(d, luck);
            && Follows(d, s.ops, luck.checkpoints)
            && var e := Run(d, s.ops);
            && (s.completes ==> e.pending.None?)
            && (d.pending.Some? ==> e.marker)
            && (d.pending.None? ==> e == d)
            && (s.completes && Applies(d) ==> e.live == d.pending && e.wal.None?)
  {
    if Applies(d) {
      var marked := d.(marker := true);
      AcceptFollows(marked, luck);
      RunOne(d, WriteMarker, luck.checkpoints);
      RunThen(d, [WriteMarker], AcceptScript(marked, luck).ops, luck.checkpoints);
    } else if d.pending.Some? {
      RunThree(d, WriteMarker, RemovePending, WriteLog, luck.checkpoints);
    }
  }

  /** A transaction of a start that says nothing of the outputs. */
  lemma QuietCommitFollows(d: Disk, c: Commit, folds: bool)
    requires d.live.Some? && d.pending.None? && OfAStart(c) && SetBy(c).None?
    ensures Follows(d, [Commit(c)], folds) && Run(d, [Commit(c)]) == WithCommit(d, c)
    ensures var e := WithCommit(d, c);
            && e.live.Some? && e.pending.None? && e.marker == d.marker && Held(e) == Held(d)
            && e.backups == d.backups
  {
    RunOne(d, Commit(c), folds);
    CommitAppends(d, c);
  }

  lemma {:induction false} UpgradeFollows(d: Disk, schema: nat, folds: bool)
    requires d.live.Some? && d.pending.None?
    ensures Follows(d, UpgradeOps(schema), folds)
    ensures var e := Run(d, UpgradeOps(schema));
            && e.live.Some? && e.pending.None? && e.marker == d.marker && Held(e) == Held(d)
            && e.backups == d.backups
    decreases STORAGE_SCHEMA_VERSION - schema
  {
    if schema < STORAGE_SCHEMA_VERSION {
      var step := Upgrade(schema + 1);
      QuietCommitFollows(d, step, folds);
      UpgradeFollows(WithCommit(d, step), schema + 1, folds);
      RunThen(d, [Commit(step)], UpgradeOps(schema + 1), folds);
    }
  }

  lemma MigrateFollows(d: Disk, schema: nat, folds: bool)
    requires d.live.Some? && d.pending.None?
    ensures Follows(d, MigrateOps(schema), folds)
    ensures var e := Run(d, MigrateOps(schema));
            && e.live.Some? && e.pending.None? && e.marker == d.marker && Held(e) == Held(d)
            && e.backups == d.backups
  {
    if schema == 0 {
      QuietCommitFollows(d, Tables, folds);
      UpgradeFollows(WithCommit(d, Tables), schema, folds);
      RunThen(d, [Commit(Tables)], UpgradeOps(schema), folds);
    } else {
      assert MigrateOps(schema) == UpgradeOps(schema);
      UpgradeFollows(d, schema, folds);
    }
  }

  /** What a prune leaves: every removal is allowed when it comes, and all of them
      together take those names away and nothing else. */
  lemma {:induction false} RemovalsFollow(d: Disk, names: seq<Name>, folds: bool)
    requires InPruneOrder(d.backups, names)
    ensures Follows(d, RemoveOps(names), folds)
    ensures var e := Run(d, RemoveOps(names));
            e == d.(backups := d.backups - (set n | n in names), pruned := e.pruned)
    decreases |names|
  {
    if |names| > 0 {
      OneLess(d.backups, names);
      assert RemoveOps(names)[1..] == RemoveOps(names[1..]);
      RemovalsFollow(WithoutBackup(d, names[0]), names[1..], folds);
      LessInTwo(d.backups, names);
    } else {
      assert d.backups - (set n | n in names) == d.backups;
    }
  }

  lemma LessInTwo(backups: map<Name, Database>, names: seq<Name>)
    requires |names| > 0
    ensures backups - {names[0]} - (set n | n in names[1..]) == backups - (set n | n in names)
  {
    assert (set n | n in names) == {names[0]} + set n | n in names[1..];
  }

  /** What a prune leaves: of the copies there are, exactly those that have fewer
      later ones of their reason than are kept, as they were. */
  lemma PruneFollows(d: Disk, folds: bool)
    ensures Follows(d, RemoveOps(Pruned(d.backups)), folds)
    ensures var e := Run(d, RemoveOps(Pruned(d.backups)));
            e == d.(backups := e.backups, pruned := e.pruned) && IsPrunedTo(d.backups, e.backups)
  {
    PrunedInOrder(d.backups);
    RemovalsFollow(d, Pruned(d.backups), folds);
    forall n
      ensures n in Pruned(d.backups) <==> n in d.backups && IsSurplus(d.backups, n)
    {
      PrunedIff(d.backups, n);
    }
  }

  ghost predicate IsPrunedTo(before: map<Name, Database>, after: map<Name, Database>) {
    && (forall n :: n in after <==> n in before && !IsSurplus(before, n))
    && (forall n | n in after :: after[n] == before[n])
  }

  lemma CopyFollows(d: Disk, name: Name, folds: bool)
    requires d.live.Some? && name !in d.backups
    ensures Follows(d, CopyOps(d, name), folds)
    ensures var e := Run(d, CopyOps(d, name));
            && e == d.(backups := e.backups, pruned := e.pruned)
            && IsPrunedTo(d.backups[name := SnapshotOf(d)], e.backups)
  {
    var copied := Do(d, BackUp(name));
    PruneFollows(copied, folds);
    RunOne(d, BackUp(name), folds);
    RunThen(d, [BackUp(name)], RemoveOps(Pruned(copied.backups)), folds);
  }

  lemma BackUpFollows(d: Disk, luck: Luck)
    requires d.live.Some? && d.pending.None?
    ensures var s := BackUpScript(d, luck);
            && Follows(d, s.ops, luck.checkpoints)
            && var e := Run(d, s.ops); e == d.(backups := e.backups, pruned := e.pruned)
  {
    var name := FirstFree(luck.upgradeNames, PreMigration, d.backups);
    if name.Some? {
      CopyFollows(d, name.value, luck.checkpoints);
    }
  }

  lemma OpenFollows(d: Disk, luck: Luck)
    requires d.live.Some? && d.pending.None?
    ensures var s := OpenScript(d, luck);
            && Follows(d, s.ops, luck.checkpoints)
            && var e := Run(d, s.ops);
            && e.live.Some? && e.pending.None? && e.marker == d.marker && Held(e) == Held(d)
            && e.backups == Run(d, if Accepted(d.live.value) then BackUpScript(d, luck).ops else []).backups
  {
    if Accepted(d.live.value) {
      var backUp := BackUpScript(d, luck);
      if backUp.completes {
        BackUpFollows(d, luck);
        var d1 := Run(d, backUp.ops);
        assert Committed(d1) == Committed(d);
        var rest := MigrateOps(d.live.value.schema) + [Commit(Defaults), WriteLog];
        RestFollows(d1, d.live.value.schema, luck.checkpoints);
        RunThen(d, backUp.ops, rest, luck.checkpoints);
      }
    }
  }

  lemma RestFollows(d: Disk, schema: nat, folds: bool)
    requires d.live.Some? && d.pending.None?
    ensures var ops := MigrateOps(schema) + [Commit(Defaults), WriteLog];
            && Follows(d, ops, folds)
            && var e := Run(d, ops);
            && e.live.Some? && e.pending.None? && e.marker == d.marker && Held(e) == Held(d) && e.backups == d.backups
  {
    MigrateFollows(d, schema, folds);
    var d2 := Run(d, MigrateOps(schema));
    CommitAppends(d2, Defaults);
    RunTwo(d2, Commit(Defaults), WriteLog, folds);
    RunThen(d, MigrateOps(schema), [Commit(Defaults), WriteLog], folds);
  }

  lemma InitializeFollows(d: Disk, luck: Luck)
    requires d.pending.None?
    ensures var s := InitializeScript(d, luck);
            && Follows(d, s.ops, luck.checkpoints)
            && var e := Run(d, s.ops);
            && e.live.Some? && e.pending.None? && e.marker == d.marker
            && (d.live.Some? ==> Held(e) == Held(d))
  {
    if d.live.None? {
      var created := Do(d, CreateLive);
      OpenFollows(created, luck);
      RunOne(d, CreateLive, luck.checkpoints);
      RunThen(d, [CreateLive], OpenScript(created, luck).ops, luck.checkpoints);
    } else {
      OpenFollows(d, luck);
    }
  }

  lemma CommitAppends(d: Disk, c: Commit)
    requires d.live.Some?
    ensures WithCommit(d, c).live.Some? && Committed(WithCommit(d, c)) == Committed(d) + [c]
    ensures Held(WithCommit(d, c)) == if SetBy(c).Some? then !SetBy(c).value else Held(d)
  {
    assert Committed(WithCommit(d, c)) == Committed(d) + [c];
    assert (Committed(d) + [c])[..|Committed(d)|] == Committed(d);
  }

  function Launched(d: Disk, commit: Option<Commit>): Disk { if commit.Some? then WithCommit(d, commit.value) else d }

  /** What the hold writes leaves the outputs held when a restore was found or
      is owed, or the start is a safe one; else it is nothing. */
  lemma LaunchHolds(d: Disk, applied: bool, staged: bool, owed: bool, safeStart: bool)
    requires d.live.Some?
    ensures var commit := LaunchCommit(ArmedBy(Committed(d)), applied, staged, owed, safeStart);
            var e := Launched(d, commit);
            && e.live.Some? && e.pending == d.pending && e.marker == d.marker
            && (applied || staged || owed || safeStart ==> Held(e))
            && (!(applied || staged || owed || safeStart) ==> commit.None?)
            && (commit.Some? ==> commit.value.Launch? && SetBy(commit.value) != Some(true))
  {
    var commit := LaunchCommit(ArmedBy(Committed(d)), applied, staged, owed, safeStart);
    if commit.Some? {
      CommitAppends(d, commit.value);
    }
  }

  lemma RunThreeParts(d: Disk, a: seq<Op>, b: seq<Op>, c: seq<Op>, folds: bool)
    requires Follows(d, a, folds) && Follows(Run(d, a), b, folds) && Follows(Run(Run(d, a), b), c, folds)
    ensures Follows(d, a + b + c, folds) && Run(d, a + b + c) == Run(Run(Run(d, a), b), c)
  {
    RunThen(d, a, b, folds);
    RunThen(d, a + b, c, folds);
  }

  /** The operations that leave what the live database holds as it is. */
  predicate LeavesContents(op: Op) {
    || op.WriteLog? || op.WriteMarker? || op.RemoveMarker? || op.RemovePending?
    || op.Checkpoint? || op.BackUp? || op.RemoveBackup?
  }

  lemma ContentsLeft(d: Disk, op: Op)
    requires d.live.Some? && LeavesContents(op)
    ensures Do(d, op).live.Some? && Committed(Do(d, op)) == Committed(d)
  {
  }

  /** The hold's operations follow the protocol (the marker goes only once the
      hold is written, and then if it can be removed), and they leave the outputs held when a restore was
      found or is owed, or the start is a safe one; else they change nothing. */
  lemma HoldFollows(d: Disk, applied: bool, staged: bool, luck: Luck)
    requires d.live.Some? && d.pending.None?
    ensures var ops := HoldOps(d, applied, staged, luck);
            && Follows(d, ops, luck.checkpoints)
            && var e := Run(d, ops);
            && e.live.Some? && e.pending.None?
            && (applied || staged || d.marker || luck.safeStart ==> Held(e))
            && (!(applied || staged || d.marker || luck.safeStart) ==> e == d)
            && (e.marker <==> d.marker && !luck.removesMarker)
  {
    var commit := LaunchCommit(ArmedBy(Committed(d)), applied, staged, d.marker, luck.safeStart);
    LaunchHolds(d, applied, staged, d.marker, luck.safeStart);
    SafeStartFollows(d, luck);
    CommitFollows(d, commit, luck.checkpoints);
    UnmarkFollows(Launched(d, commit), luck);
    RunThreeParts(d, SafeStartOps(luck), CommitOps(commit), UnmarkOps(d.marker, luck), luck.checkpoints);
  }

  lemma SafeStartFollows(d: Disk, luck: Luck)
    ensures Follows(d, SafeStartOps(luck), luck.checkpoints) && Run(d, SafeStartOps(luck)) == d
  {
    RunOne(d, WriteLog, luck.checkpoints);
  }

  lemma CommitFollows(d: Disk, commit: Option<Commit>, folds: bool)
    requires d.live.Some? && d.pending.None?
    requires commit.Some? ==> commit.value.Launch? && SetBy(commit.value) != Some(true)
    ensures Follows(d, CommitOps(commit), folds) && Run(d, CommitOps(commit)) == Launched(d, commit)
  {
    if commit.Some? {
      RunOne(d, Commit(commit.value), folds);
    }
  }

  lemma UnmarkFollows(d: Disk, luck: Luck)
    requires d.live.Some? && d.pending.None? && (d.marker ==> Held(d))
    ensures var ops := UnmarkOps(d.marker, luck);
            && Follows(d, ops, luck.checkpoints)
            && var e := Run(d, ops);
            && e.live == d.live && e.pending.None? && Held(e) == Held(d)
            && (!d.marker ==> e == d)
            && (e.marker <==> d.marker && !luck.removesMarker)
  {
    RunOne(d, RemoveMarker, luck.checkpoints);
    RunOne(d, WriteLog, luck.checkpoints);
    assert Committed(d.(marker := false)) == Committed(d);
  }

  lemma StartFollows(d: Disk, luck: Luck)
    ensures var s := StartScript(d, luck);
            && Follows(d, s.ops, luck.checkpoints)
            && var e := Run(d, s.ops);
            && (s.completes && (d.pending.Some? || d.marker || luck.safeStart) ==> Held(e))
            && (s.completes ==> e.live.Some? && e.pending.None?)
            && (s.completes ==> (e.marker <==> (d.pending.Some? || d.marker) && !luck.removesMarker))
  {
    var apply := ApplyScript(d, luck);
    ApplyFollows(d, luck);
    if apply.completes {
      var d1 := Run(d, apply.ops);
      var initialize := InitializeScript(d1, luck);
      InitializeFollows(d1, luck);
      var d2 := Run(d1, initialize.ops);
      var hold := HoldOps(d2, Applies(d), d.pending.Some?, luck);
      HoldFollows(d2, Applies(d), d.pending.Some?, luck);
      RunThen(d1, initialize.ops, hold, luck.checkpoints);
      if initialize.completes {
        RunThen(d, apply.ops, initialize.ops + hold, luck.checkpoints);
      } else {
        RunThen(d, apply.ops, initialize.ops, luck.checkpoints);
      }
    }
  }

  // ----- What every operation keeps, every stopped start keeps

  lemma {:induction false} RunKeeps(d: Disk, ops: seq<Op>, folds: bool, inv: Disk -> bool)
    requires Follows(d, ops, folds) && inv(d)
    requires forall e, op | Allowed(e, op, folds) && inv(e) :: inv(Do(e, op))
    ensures inv(Run(d, ops))
    decreases |ops|
  {
    if |ops| > 0 {
      RunKeeps(Do(d, ops[0]), ops[1..], folds, inv);
    }
  }

  lemma StoppedOpsKeep(d: Disk, ops: seq<Op>, life: nat, folds: bool, inv: Disk -> bool)
    requires Follows(d, ops, folds) && inv(d)
    requires forall e, op | Allowed(e, op, folds) && inv(e) :: inv(Do(e, op))
    ensures inv(Stopped(d, ops, life))
  {
    if life < |ops| {
      assert ops[..life] + ops[life..] == ops;
      RunThen(d, ops[..life], ops[life..], folds);
      RunKeeps(d, ops[..life], folds, inv);
    } else {
      RunKeeps(d, ops, folds, inv);
    }
  }

  lemma StoppedKeeps(d: Disk, luck: Luck, life: nat, inv: Disk -> bool)
    requires inv(d)
    requires forall e, op | Allowed(e, op, luck.checkpoints) && inv(e) :: inv(Do(e, op))
    ensures inv(AfterStart(d, luck, life))
  {
    StartFollows(d, luck);
    StoppedOpsKeep(d, StartScript(d, luck).ops, life, luck.checkpoints, inv);
  }
}

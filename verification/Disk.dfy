// Committing settings files as a transaction over a disk that may fail at any write.
module Disks {
  import opened Wrappers
  import opened Drives

  datatype Prepared = Prepared(path: nat, original: Option<Bytes>, updated: Option<Bytes>,
                               originalManifest: Option<Bytes>, updatedManifest: Option<Bytes>)

  datatype CommitError = UpdateFailed | RollbackFailed

  function OrEmpty(b: Option<Bytes>): Bytes {
    match b case Some(bytes) => bytes case None => ""
  }

  // backup_once, then the settings, then the manifest.
  function BackedUp(files: Files, p: Prepared, sum: Bytes -> Bytes): Files {
    if Content(files, File(p.path, Backup)).Some? then files
    else files[File(p.path, Backup) := Some(OrEmpty(p.original))]
              [File(p.path, BackupSum) := Some(sum(OrEmpty(p.original)))]
  }

  function Applied(files: Files, p: Prepared, createBackup: bool, sum: Bytes -> Bytes): Files {
    (if createBackup then BackedUp(files, p, sum) else files)
      [File(p.path, Settings) := p.updated][File(p.path, Manifest) := p.updatedManifest]
  }

  function AllApplied(files: Files, prepared: seq<Prepared>, createBackup: bool, sum: Bytes -> Bytes): Files {
    if prepared == [] then files
    else
      var n := |prepared| - 1;
      Applied(AllApplied(files, prepared[..n], createBackup, sum), prepared[n], createBackup, sum)
  }

  function PathsOf(prepared: seq<Prepared>): (paths: seq<nat>)
    ensures |paths| == |prepared| && forall i :: 0 <= i < |paths| ==> paths[i] == prepared[i].path
  {
    seq(|prepared|, i requires 0 <= i < |prepared| => prepared[i].path)
  }

  ghost predicate Distinct(prepared: seq<Prepared>) {
    forall i, j :: 0 <= i < j < |prepared| ==> prepared[i].path != prepared[j].path
  }

  // The settings and the manifest of p are as they were read.
  ghost predicate AsRead(files: Files, p: Prepared) {
    && Content(files, File(p.path, Settings)) == p.original
    && Content(files, File(p.path, Manifest)) == p.originalManifest
  }

  ghost predicate AllAsRead(files: Files, prepared: seq<Prepared>) {
    forall i :: 0 <= i < |prepared| ==> AsRead(files, prepared[i])
  }

  ghost predicate AsReadFrom(files: Files, prepared: seq<Prepared>, i: nat, n: nat)
    requires n <= |prepared|
  {
    forall j :: i <= j < n ==> AsRead(files, prepared[j])
  }

  // Nothing differs but settings and manifests of the paths.
  ghost predicate OnlyRestored(before: Files, after: Files, paths: seq<nat>) {
    forall f: File :: f.owner !in paths || f.kind == Backup || f.kind == BackupSum ==>
      Content(after, f) == Content(before, f)
  }

  lemma RestoredStep(first: Files, before: Files, after: Files, prepared: seq<Prepared>, paths: seq<nat>, i: nat)
    requires Distinct(prepared) && i < |paths| <= |prepared|
    requires forall j :: 0 <= j < |paths| ==> paths[j] == prepared[j].path
    requires OnlyRestored(first, before, paths) && AsReadFrom(before, prepared, i + 1, |paths|)
    requires OnlyRestored(before, after, [paths[i]])
    ensures OnlyRestored(first, after, paths) && AsReadFrom(after, prepared, i + 1, |paths|)
  {
    forall f: File | f.owner !in paths || f.kind == Backup || f.kind == BackupSum
      ensures Content(after, f) == Content(first, f)
    {
      assert Content(before, f) == Content(first, f);
      assert paths[i] in paths;
    }
    forall j | i + 1 <= j < |paths| ensures AsRead(after, prepared[j]) {
      assert AsRead(before, prepared[j]);
      assert prepared[i].path != prepared[j].path;
    }
  }

  // Nothing outside one settings directory differs.
  ghost predicate OnlyOwner(before: Files, after: Files, owner: nat) {
    forall f: File :: f.owner != owner ==> Content(after, f) == Content(before, f)
  }

  // A backup is never replaced, and a new one holds what was read.
  ghost predicate BackupSafe(before: Files, after: Files, p: Prepared) {
    var b := File(p.path, Backup);
    || Content(after, b) == Content(before, b)
    || (Content(before, b) == None && Content(after, b) == Some(OrEmpty(p.original)))
  }

  ghost predicate SameContent(a: Files, b: Files) {
    forall f: File :: Content(a, f) == Content(b, f)
  }

  ghost predicate OnlyPaths(before: Files, after: Files, paths: seq<nat>) {
    forall f: File :: f.owner !in paths ==> Content(after, f) == Content(before, f)
  }

  lemma SetSame(a: Files, b: Files, f: File, bytes: Option<Bytes>)
    requires SameContent(a, b)
    ensures SameContent(a[f := bytes], b[f := bytes])
  {
    var a1, b1 := a[f := bytes], b[f := bytes];
    forall g: File ensures Content(a1, g) == Content(b1, g) {
      assert Content(a, g) == Content(b, g);
    }
  }

  lemma AppliedSame(a: Files, b: Files, p: Prepared, createBackup: bool, sum: Bytes -> Bytes)
    requires SameContent(a, b)
    ensures SameContent(Applied(a, p, createBackup, sum), Applied(b, p, createBackup, sum))
  {
    var backup, bytes := File(p.path, Backup), OrEmpty(p.original);
    assert Content(a, backup) == Content(b, backup);
    SetSame(a, b, backup, Some(bytes));
    SetSame(a[backup := Some(bytes)], b[backup := Some(bytes)], File(p.path, BackupSum), Some(sum(bytes)));
    var a1 := if createBackup then BackedUp(a, p, sum) else a;
    var b1 := if createBackup then BackedUp(b, p, sum) else b;
    SetSame(a1, b1, File(p.path, Settings), p.updated);
    SetSame(a1[File(p.path, Settings) := p.updated], b1[File(p.path, Settings) := p.updated],
            File(p.path, Manifest), p.updatedManifest);
  }

  lemma AllAppliedStep(first: Files, before: Files, after: Files, prepared: seq<Prepared>, i: nat,
                       createBackup: bool, sum: Bytes -> Bytes)
    requires i < |prepared| && SameContent(before, AllApplied(first, prepared[..i], createBackup, sum))
    requires SameContent(after, Applied(before, prepared[i], createBackup, sum))
    ensures SameContent(after, AllApplied(first, prepared[..i + 1], createBackup, sum))
  {
    assert prepared[..i + 1][..i] == prepared[..i];
    AppliedSame(before, AllApplied(first, prepared[..i], createBackup, sum), prepared[i], createBackup, sum);
  }

  // What holds however far a commit got.
  ghost predicate Safe(first: Files, now: Files, prepared: seq<Prepared>) {
    && OnlyPaths(first, now, PathsOf(prepared))
    && forall j :: 0 <= j < |prepared| ==> BackupSafe(first, now, prepared[j])
  }

  // Before path i: the first i are applied and the rest is as it was read.
  ghost predicate Progress(first: Files, now: Files, prepared: seq<Prepared>, i: nat, createBackup: bool,
                           sum: Bytes -> Bytes)
  {
    && i <= |prepared|
    && SameContent(now, AllApplied(first, prepared[..i], createBackup, sum))
    && Safe(first, now, prepared)
    && AsReadFrom(now, prepared, i, |prepared|)
  }

  // A step on one path, finished or not.
  lemma StepSafe(first: Files, before: Files, after: Files, prepared: seq<Prepared>, i: nat,
                 createBackup: bool, sum: Bytes -> Bytes)
    requires Distinct(prepared) && i < |prepared| && Progress(first, before, prepared, i, createBackup, sum)
    requires OnlyOwner(before, after, prepared[i].path) && BackupSafe(before, after, prepared[i])
    ensures Safe(first, after, prepared) && AsReadFrom(after, prepared, i + 1, |prepared|)
  {
    assert PathsOf(prepared)[i] in PathsOf(prepared);
    forall j | 0 <= j < |prepared| ensures BackupSafe(first, after, prepared[j]) {
      assert BackupSafe(first, before, prepared[j]);
      if j != i {
        assert prepared[j].path != prepared[i].path;
      }
    }
  }

  lemma UndoSafe(first: Files, before: Files, after: Files, prepared: seq<Prepared>, i: nat)
    requires Safe(first, before, prepared) && i < |prepared|
    requires OnlyRestored(before, after, PathsOf(prepared)[..i + 1])
    ensures Safe(first, after, prepared)
  {
    forall j | 0 <= j < |prepared| ensures BackupSafe(first, after, prepared[j]) {
      assert BackupSafe(first, before, prepared[j]);
    }
    forall f: File | f.owner !in PathsOf(prepared) ensures Content(after, f) == Content(first, f) {
      assert f.owner !in PathsOf(prepared)[..i + 1];
    }
  }

  lemma UndoReads(before: Files, after: Files, prepared: seq<Prepared>, i: nat)
    requires Distinct(prepared) && i < |prepared| && OnlyRestored(before, after, PathsOf(prepared)[..i + 1])
    requires AsReadFrom(before, prepared, i + 1, |prepared|) && AsReadFrom(after, prepared, 0, i + 1)
    ensures AllAsRead(after, prepared)
  {
    forall j | i < j < |prepared| ensures AsRead(after, prepared[j]) {
      assert AsRead(before, prepared[j]);
      assert prepared[j].path !in PathsOf(prepared)[..i + 1];
    }
  }

  lemma ProgressEnds(first: Files, now: Files, prepared: seq<Prepared>, createBackup: bool, sum: Bytes -> Bytes)
    requires Progress(first, now, prepared, |prepared|, createBackup, sum)
    ensures SameContent(now, AllApplied(first, prepared, createBackup, sum)) && Safe(first, now, prepared)
  {
    assert prepared[..|prepared|] == prepared;
  }

  lemma ProgressStarts(first: Files, prepared: seq<Prepared>, createBackup: bool, sum: Bytes -> Bytes)
    requires AllAsRead(first, prepared)
    ensures Progress(first, first, prepared, 0, createBackup, sum)
  {
  }

  // ---- the operations of a commit ---------------------------------------------------------

  // Removing a file that is not there is no operation.
  function OptionalTasks(files: Files, f: File, bytes: Option<Bytes>): seq<Task> {
    match bytes
    case Some(b) => [Put(f, b)]
    case None => if Content(files, f).Some? then [Drop(f)] else []
  }

  function BackupTasks(files: Files, p: Prepared, sum: Bytes -> Bytes): seq<Task> {
    if Content(files, File(p.path, Backup)).Some? then []
    else [Put(File(p.path, Backup), OrEmpty(p.original)), Put(File(p.path, BackupSum), sum(OrEmpty(p.original)))]
  }

  function UpdateTasks(files: Files, p: Prepared): seq<Task> {
    OptionalTasks(files, File(p.path, Settings), p.updated)
    + OptionalTasks(files, File(p.path, Manifest), p.updatedManifest)
  }

  function PathTasks(files: Files, p: Prepared, createBackup: bool, sum: Bytes -> Bytes): seq<Task> {
    (if createBackup then BackupTasks(files, p, sum) else []) + UpdateTasks(files, p)
  }

  function RestoreTasks(files: Files, p: Prepared): seq<Task> {
    OptionalTasks(files, File(p.path, Settings), p.original)
    + OptionalTasks(files, File(p.path, Manifest), p.originalManifest)
  }

  // Undoing the first n paths, the last of them first.
  function RolledBack(faults: Faults, d: Drive, prepared: seq<Prepared>, n: nat): (bool, Drive)
    requires n <= |prepared|
    decreases n
  {
    if n == 0 then (true, d)
    else
      var step := RunTasks(faults, d, RestoreTasks(d.files, prepared[n - 1]));
      if step.0 then RolledBack(faults, step.1, prepared, n - 1) else step
  }

  // Committing from path i on: the error, if any, and the drive afterwards.
  function Committed(faults: Faults, sum: Bytes -> Bytes, d: Drive, prepared: seq<Prepared>, i: nat,
                     createBackup: bool):
      (Option<CommitError>, Drive)
    requires i <= |prepared|
    decreases |prepared| - i
  {
    if i == |prepared| then (None, d)
    else
      var step := RunTasks(faults, d, PathTasks(d.files, prepared[i], createBackup, sum));
      if step.0 then Committed(faults, sum, step.1, prepared, i + 1, createBackup)
      else
        var back := RolledBack(faults, step.1, prepared, i + 1);
        (Some(if back.0 then UpdateFailed else RollbackFailed), back.1)
  }

  lemma {:induction false} RolledBackHonest(faults: Faults, d: Drive, prepared: seq<Prepared>, n: nat)
    requires n <= |prepared|
    ensures Honest(faults, d, RolledBack(faults, d, prepared, n).0, RolledBack(faults, d, prepared, n).1)
    decreases n
  {
    if n > 0 {
      var step := RunTasks(faults, d, RestoreTasks(d.files, prepared[n - 1]));
      RunHonest(faults, d, RestoreTasks(d.files, prepared[n - 1]));
      if step.0 {
        RolledBackHonest(faults, step.1, prepared, n - 1);
        var rest := RolledBack(faults, step.1, prepared, n - 1);
        HonestThen(faults, d, step.1, rest.0, rest.1);
      }
    }
  }

  // A commit works exactly when no fault was due; on a drive where no temporary file was
  // left, its rollback fails only after a second fault.
  lemma {:induction false} CommittedHonest(faults: Faults, sum: Bytes -> Bytes, d: Drive, prepared: seq<Prepared>,
                                           i: nat, createBackup: bool)
    requires i <= |prepared|
    ensures var c := Committed(faults, sum, d, prepared, i, createBackup);
            && Honest(faults, d, c.0 == None, c.1)
            && (c.0 == Some(RollbackFailed) && d.temps == {} && Tidy(faults, d.writes, c.1.writes) ==>
                  TwoFaults(faults, d.writes, c.1.writes))
    decreases |prepared| - i
  {
    if i < |prepared| {
      var step := RunTasks(faults, d, PathTasks(d.files, prepared[i], createBackup, sum));
      RunHonest(faults, d, PathTasks(d.files, prepared[i], createBackup, sum));
      if step.0 {
        CommittedHonest(faults, sum, step.1, prepared, i + 1, createBackup);
        var c := Committed(faults, sum, step.1, prepared, i + 1, createBackup);
        HonestThen(faults, d, step.1, c.0 == None, c.1);
      } else {
        var back := RolledBack(faults, step.1, prepared, i + 1);
        RolledBackHonest(faults, step.1, prepared, i + 1);
        HonestStill(faults, d, step.1, back.0, back.1);
        if !back.0 && d.temps == {} && Tidy(faults, d.writes, back.1.writes) {
          FailedTwice(faults, d, step.1, back.1);
        }
      }
    }
  }

  lemma OptionalSame(a: Files, b: Files, f: File, bytes: Option<Bytes>)
    requires Content(a, f) == Content(b, f)
    ensures OptionalTasks(a, f, bytes) == OptionalTasks(b, f, bytes)
  {
  }

  function FindPath(prepared: seq<Prepared>, path: nat): (p: Option<Prepared>)
    ensures p.Some? ==> p.value in prepared && p.value.path == path
    ensures p == None ==> forall q :: q in prepared ==> q.path != path
  {
    if prepared == [] then None
    else if prepared[0].path == path then Some(prepared[0])
    else FindPath(prepared[1..], path)
  }

  lemma {:induction false} FindDistinct(prepared: seq<Prepared>, i: nat)
    requires Distinct(prepared) && i < |prepared|
    ensures FindPath(prepared, prepared[i].path) == Some(prepared[i])
  {
    if i > 0 {
      FindDistinct(prepared[1..], i - 1);
    }
  }

  class Disk {
    var files: Files
    var temps: set<File>
    var writes: nat
    const faults: Faults
    const sum: Bytes -> Bytes

    constructor (files: Files, temps: set<File>, faults: Faults, sum: Bytes -> Bytes)
      ensures Now() == Drive(files, temps, 0) && this.faults == faults && this.sum == sum
    {
      this.files, this.temps, this.writes, this.faults, this.sum := files, temps, 0, faults, sum;
    }

    function Now(): Drive
      reads this
    {
      Drive(files, temps, writes)
    }

    // No fault was due between two counts of writes.
    ghost predicate Clean(from: nat, to: nat) {
      Clear(faults, from, to)
    }

    twostate predicate Fair(ok: bool)
      reads this
    {
      Honest(faults, old(Now()), ok, Now())
    }

    // write_atomic: a temporary file left by this process makes every later write of the
    // same file fail.
    method WriteAtomic(f: File, bytes: Bytes) returns (ok: bool)
      modifies this
      ensures ok <==> f !in old(temps) && faults(old(writes)) == NoFault
      ensures files == if ok || (f !in old(temps) && faults(old(writes)) == AfterRename)
                       then old(files)[f := Some(bytes)] else old(files)
      ensures temps == if faults(old(writes)) == BeforeRename then old(temps) + {f} else old(temps)
      ensures writes == old(writes) + 1 && Fair(ok)
      ensures (ok, Now()) == Do(faults, old(Now()), Put(f, bytes))
    {
      DoHonest(faults, Now(), Put(f, bytes));
      var fault := faults(writes);
      writes := writes + 1;
      if f in temps || fault == BeforeCreate {
        return false;
      }
      temps := temps + {f};
      if fault == BeforeRename {
        return false;
      }
      temps := temps - {f};
      files := files[f := Some(bytes)];
      return fault == NoFault;
    }

    method RemoveIfExists(f: File) returns (ok: bool)
      modifies this
      ensures ok <==> Content(old(files), f) == None || faults(old(writes)) == NoFault
      ensures files == if ok && Content(old(files), f).Some? then old(files)[f := None] else old(files)
      ensures Fair(ok)
      ensures (ok, Now()) == RunTasks(faults, old(Now()), OptionalTasks(old(files), f, None))
    {
      RunSingle(faults, Now(), Drop(f));
      DoHonest(faults, Now(), Drop(f));
      if Content(files, f) == None {
        return true;
      }
      var fault := faults(writes);
      writes := writes + 1;
      if fault != NoFault {
        return false;
      }
      files := files[f := None];
      return true;
    }

    method ApplyOptional(f: File, bytes: Option<Bytes>) returns (ok: bool)
      modifies this
      ensures ok ==> Content(files, f) == bytes
      ensures forall g: File :: g != f ==> Content(files, g) == Content(old(files), g)
      ensures Fair(ok)
      ensures (ok, Now()) == RunTasks(faults, old(Now()), OptionalTasks(old(files), f, bytes))
    {
      match bytes {
        case Some(b) =>
          RunSingle(faults, Now(), Put(f, b));
          ok := WriteAtomic(f, b);
        case None => ok := RemoveIfExists(f);
      }
    }

    method BackupOnce(p: Prepared) returns (ok: bool)
      modifies this
      ensures forall f: File :: f !in {File(p.path, Backup), File(p.path, BackupSum)} ==>
                Content(files, f) == Content(old(files), f)
      ensures BackupSafe(old(files), files, p)
      ensures ok ==> SameContent(files, BackedUp(old(files), p, sum))
      ensures Fair(ok)
      ensures (ok, Now()) == RunTasks(faults, old(Now()), BackupTasks(old(files), p, sum))
    {
      if Content(files, File(p.path, Backup)).Some? {
        return true;
      }
      ghost var tasks := BackupTasks(files, p, sum);
      RunHonest(faults, Now(), tasks);
      assert tasks[1..] == [tasks[1]];
      ok := WriteAtomic(File(p.path, Backup), OrEmpty(p.original));
      if !ok {
        return;
      }
      RunSingle(faults, Now(), tasks[1]);
      ok := WriteAtomic(File(p.path, BackupSum), sum(OrEmpty(p.original)));
    }

    // The settings, then the manifest.
    method ApplyBoth(p: Prepared, settings: Option<Bytes>, manifest: Option<Bytes>) returns (ok: bool)
      modifies this
      ensures ok ==>
                Content(files, File(p.path, Settings)) == settings && Content(files, File(p.path, Manifest)) == manifest
      ensures forall f: File :: f !in {File(p.path, Settings), File(p.path, Manifest)} ==>
                Content(files, f) == Content(old(files), f)
      ensures Fair(ok)
      ensures (ok, Now()) == RunTasks(faults, old(Now()), OptionalTasks(old(files), File(p.path, Settings), settings)
                                                          + OptionalTasks(old(files), File(p.path, Manifest), manifest))
    {
      ghost var first := OptionalTasks(files, File(p.path, Settings), settings);
      ghost var second := OptionalTasks(files, File(p.path, Manifest), manifest);
      RunAppend(faults, Now(), first, second);
      RunHonest(faults, Now(), first + second);
      ok := ApplyOptional(File(p.path, Settings), settings);
      if !ok {
        return;
      }
      ok := ApplyOptional(File(p.path, Manifest), manifest);
    }

    method ApplyOne(p: Prepared, createBackup: bool) returns (ok: bool)
      modifies this
      ensures OnlyOwner(old(files), files, p.path) && BackupSafe(old(files), files, p)
      ensures ok ==> SameContent(files, Applied(old(files), p, createBackup, sum))
      ensures Fair(ok)
      ensures (ok, Now()) == RunTasks(faults, old(Now()), PathTasks(old(files), p, createBackup, sum))
    {
      ghost var backup := if createBackup then BackupTasks(files, p, sum) else [];
      RunAppend(faults, Now(), backup, UpdateTasks(files, p));
      RunHonest(faults, Now(), backup + UpdateTasks(files, p));
      if createBackup {
        ok := BackupOnce(p);
        if !ok {
          return;
        }
      }
      ok := ApplyBoth(p, p.updated, p.updatedManifest);
    }

    // One round of the rollback: the snapshot of a path is found and written back.
    method RestoreOne(prepared: seq<Prepared>, path: nat, ghost i: nat) returns (ok: bool)
      requires Distinct(prepared) && i < |prepared| && path == prepared[i].path
      modifies this
      ensures ok ==> AsRead(files, prepared[i])
      ensures forall f: File :: f !in {File(path, Settings), File(path, Manifest)} ==>
                Content(files, f) == Content(old(files), f)
      ensures Fair(ok)
      ensures (ok, Now()) == RunTasks(faults, old(Now()), RestoreTasks(old(files), prepared[i]))
    {
      FindDistinct(prepared, i);
      var settings := FindPath(prepared, path);
      if settings == None {
        return false;
      }
      ok := ApplyBoth(settings.value, settings.value.original, settings.value.originalManifest);
    }

    // rollback_settings: the last path first; the first failure ends it.
    method RollbackLoop(prepared: seq<Prepared>, committed: seq<nat>) returns (ok: bool)
      requires Distinct(prepared) && |committed| <= |prepared|
      requires forall i :: 0 <= i < |committed| ==> committed[i] == prepared[i].path
      modifies this
      ensures ok ==> AsReadFrom(files, prepared, 0, |committed|)
      ensures (ok, Now()) == RolledBack(faults, old(Now()), prepared, |committed|)
      ensures OnlyRestored(old(files), files, committed)
    {
      var i := |committed|;
      while i > 0
        invariant 0 <= i <= |committed|
        invariant AsReadFrom(files, prepared, i, |committed|)
        invariant RolledBack(faults, old(Now()), prepared, |committed|) == RolledBack(faults, Now(), prepared, i)
        invariant OnlyRestored(old(files), files, committed)
      {
        i := i - 1;
        ghost var before := files;
        ok := RestoreOne(prepared, committed[i], i);
        RestoredStep(old(files), before, files, prepared, committed, i);
        if !ok {
          return;
        }
      }
      return true;
    }

    // The same, with what it says about faults.
    method Rollback(prepared: seq<Prepared>, committed: seq<nat>) returns (ok: bool)
      requires Distinct(prepared) && |committed| <= |prepared|
      requires forall i :: 0 <= i < |committed| ==> committed[i] == prepared[i].path
      modifies this
      ensures ok ==> AsReadFrom(files, prepared, 0, |committed|)
      ensures Fair(ok)
      ensures (ok, Now()) == RolledBack(faults, old(Now()), prepared, |committed|)
      ensures OnlyRestored(old(files), files, committed)
    {
      RolledBackHonest(faults, Now(), prepared, |committed|);
      ok := RollbackLoop(prepared, committed);
    }

    // The error path of commit_settings: undo everything up to and including path i.
    method Undo(prepared: seq<Prepared>, committed: seq<nat>, i: nat, ghost first: Files) returns (e: CommitError)
      requires Distinct(prepared) && i < |prepared| && committed == PathsOf(prepared)[..i]
      requires AsReadFrom(files, prepared, i + 1, |prepared|)
      requires Safe(first, files, prepared)
      modifies this
      ensures e == UpdateFailed ==> AllAsRead(files, prepared)
      ensures Safe(first, files, prepared)
      ensures Fair(e == UpdateFailed)
      ensures (e == UpdateFailed, Now()) == RolledBack(faults, old(Now()), prepared, i + 1)
      ensures OnlyRestored(old(files), files, PathsOf(prepared)[..i + 1])
    {
      var rollbackPaths := committed + [prepared[i].path];
      assert rollbackPaths == PathsOf(prepared)[..i + 1];
      ghost var failed := files;
      var ok := Rollback(prepared, rollbackPaths);
      UndoSafe(first, failed, files, prepared, i);
      if !ok {
        return RollbackFailed;
      }
      UndoReads(failed, files, prepared, i);
      return UpdateFailed;
    }

    // One round of commit_settings: None, or the error after undoing.
    method CommitStep(prepared: seq<Prepared>, committed: seq<nat>, i: nat, createBackup: bool, ghost first: Files)
        returns (e: Option<CommitError>)
      requires Distinct(prepared) && i < |prepared| && committed == PathsOf(prepared)[..i]
      requires Progress(first, files, prepared, i, createBackup, sum)
      modifies this
      ensures e == None ==> Progress(first, files, prepared, i + 1, createBackup, sum)
      ensures e == None ==>
                Committed(faults, sum, old(Now()), prepared, i, createBackup)
                == Committed(faults, sum, Now(), prepared, i + 1, createBackup)
      ensures e != None ==> (e, Now()) == Committed(faults, sum, old(Now()), prepared, i, createBackup)
      ensures e == Some(UpdateFailed) ==> AllAsRead(files, prepared)
      ensures Safe(first, files, prepared)
    {
      ghost var before := files;
      var ok := ApplyOne(prepared[i], createBackup);
      StepSafe(first, before, files, prepared, i, createBackup, sum);
      if !ok {
        var error := Undo(prepared, committed, i, first);
        return Some(error);
      }
      AllAppliedStep(first, before, files, prepared, i, createBackup, sum);
      return None;
    }

    // commit_settings
    method CommitLoop(prepared: seq<Prepared>, createBackup: bool) returns (r: Result<seq<nat>, CommitError>)
      requires Distinct(prepared) && AllAsRead(files, prepared)
      modifies this
      ensures r.Ok? ==>
                r.value == PathsOf(prepared) && SameContent(files, AllApplied(old(files), prepared, createBackup, sum))
      ensures r == Err(UpdateFailed) ==> AllAsRead(files, prepared)
      ensures Safe(old(files), files, prepared)
      ensures var outcome := Committed(faults, sum, old(Now()), prepared, 0, createBackup);
              Now() == outcome.1 && r == match outcome.0 case None => Ok(PathsOf(prepared)) case Some(e) => Err(e)
    {
      var committed: seq<nat> := [];
      ghost var first := files;
      ProgressStarts(first, prepared, createBackup, sum);
      for i := 0 to |prepared|
        invariant committed == PathsOf(prepared)[..i]
        invariant Committed(faults, sum, old(Now()), prepared, 0, createBackup)
               == Committed(faults, sum, Now(), prepared, i, createBackup)
        invariant Progress(first, files, prepared, i, createBackup, sum)
      {
        var e := CommitStep(prepared, committed, i, createBackup, first);
        if e.Some? {
          return Err(e.value);
        }
        committed := committed + [prepared[i].path];
      }
      ProgressEnds(first, files, prepared, createBackup, sum);
      return Ok(committed);
    }

    // The same, with what it says about faults.
    method Commit(prepared: seq<Prepared>, createBackup: bool) returns (r: Result<seq<nat>, CommitError>)
      requires Distinct(prepared) && AllAsRead(files, prepared)
      modifies this
      ensures r.Ok? ==>
                r.value == PathsOf(prepared) && SameContent(files, AllApplied(old(files), prepared, createBackup, sum))
      ensures r == Err(UpdateFailed) ==> AllAsRead(files, prepared)
      ensures Fair(r.Ok?)
      ensures r == Err(RollbackFailed) && old(temps) == {} && Tidy(faults, old(writes), writes) ==>
                TwoFaults(faults, old(writes), writes)
      ensures Safe(old(files), files, prepared)
      ensures var outcome := Committed(faults, sum, old(Now()), prepared, 0, createBackup);
              Now() == outcome.1 && r == match outcome.0 case None => Ok(PathsOf(prepared)) case Some(e) => Err(e)
    {
      CommittedHonest(faults, sum, Now(), prepared, 0, createBackup);
      r := CommitLoop(prepared, createBackup);
    }
  }
}

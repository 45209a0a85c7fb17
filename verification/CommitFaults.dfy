// What one fault does to a commit: when the rollback fails, and what is left then.
module CommitFaults {
  import opened Wrappers
  import opened Drives
  import opened Disks

  // ---- what finished operations leave -------------------------------------------------------

  lemma OptionalRun(faults: Faults, d: Drive, f: File, bytes: Option<Bytes>)
    ensures var r := RunTasks(faults, d, OptionalTasks(d.files, f, bytes));
            && (r.0 ==> Content(r.1.files, f) == bytes)
            && forall g: File :: g != f ==> Content(r.1.files, g) == Content(d.files, g)
  {
    var tasks := OptionalTasks(d.files, f, bytes);
    if tasks != [] {
      RunSingle(faults, d, tasks[0]);
      assert tasks == [tasks[0]];
    }
  }

  lemma PairRun(faults: Faults, d: Drive, a: File, x: Option<Bytes>, b: File, y: Option<Bytes>)
    requires a != b
    ensures var r := RunTasks(faults, d, OptionalTasks(d.files, a, x) + OptionalTasks(d.files, b, y));
            r.0 ==> Content(r.1.files, a) == x && Content(r.1.files, b) == y
  {
    var first, second := OptionalTasks(d.files, a, x), OptionalTasks(d.files, b, y);
    RunAppend(faults, d, first, second);
    OptionalRun(faults, d, a, x);
    var mid := RunTasks(faults, d, first).1;
    OptionalSame(d.files, mid.files, b, y);
    OptionalRun(faults, mid, b, y);
  }

  // Settings and manifest of p are the new ones.
  ghost predicate Updated(files: Files, p: Prepared) {
    && Content(files, File(p.path, Settings)) == p.updated
    && Content(files, File(p.path, Manifest)) == p.updatedManifest
  }

  lemma BackupTasksKinds(files: Files, p: Prepared, sum: Bytes -> Bytes)
    ensures forall t :: t in BackupTasks(files, p, sum) ==>
              t.file == File(p.path, Backup) || t.file == File(p.path, BackupSum)
  {
  }

  lemma PathRun(faults: Faults, sum: Bytes -> Bytes, d: Drive, p: Prepared, createBackup: bool)
    ensures var r := RunTasks(faults, d, PathTasks(d.files, p, createBackup, sum)); r.0 ==> Updated(r.1.files, p)
  {
    var backup := if createBackup then BackupTasks(d.files, p, sum) else [];
    RunAppend(faults, d, backup, UpdateTasks(d.files, p));
    RunTouches(faults, d, backup);
    BackupTasksKinds(d.files, p, sum);
    var mid := RunTasks(faults, d, backup).1;
    OptionalSame(d.files, mid.files, File(p.path, Settings), p.updated);
    OptionalSame(d.files, mid.files, File(p.path, Manifest), p.updatedManifest);
    PairRun(faults, mid, File(p.path, Settings), p.updated, File(p.path, Manifest), p.updatedManifest);
  }

  lemma PathTasksOwner(files: Files, p: Prepared, createBackup: bool, sum: Bytes -> Bytes)
    ensures forall t :: t in PathTasks(files, p, createBackup, sum) ==> t.file.owner == p.path
    ensures forall t :: t in RestoreTasks(files, p) ==> t.file.owner == p.path
  {
  }

  ghost predicate SameAt(a: Files, b: Files, owner: nat) {
    forall f: File :: f.owner == owner ==> Content(a, f) == Content(b, f)
  }

  lemma PathTasksSame(a: Files, b: Files, p: Prepared, createBackup: bool, sum: Bytes -> Bytes)
    requires SameAt(a, b, p.path)
    ensures PathTasks(a, p, createBackup, sum) == PathTasks(b, p, createBackup, sum)
  {
    assert Content(a, File(p.path, Backup)) == Content(b, File(p.path, Backup));
    OptionalSame(a, b, File(p.path, Settings), p.updated);
    OptionalSame(a, b, File(p.path, Manifest), p.updatedManifest);
  }

  lemma PathRunElsewhere(faults: Faults, sum: Bytes -> Bytes, d: Drive, p: Prepared, createBackup: bool, owner: nat)
    requires owner != p.path
    ensures SameAt(d.files, RunTasks(faults, d, PathTasks(d.files, p, createBackup, sum)).1.files, owner)
    ensures SameAt(d.files, RunTasks(faults, d, RestoreTasks(d.files, p)).1.files, owner)
  {
    RunTouches(faults, d, PathTasks(d.files, p, createBackup, sum));
    RunTouches(faults, d, RestoreTasks(d.files, p));
    PathTasksOwner(d.files, p, createBackup, sum);
  }

  // ---- all operations of a commit -----------------------------------------------------------

  // The operations of each path, as they are without faults.
  function Parts(files: Files, prepared: seq<Prepared>, createBackup: bool, sum: Bytes -> Bytes): seq<seq<Task>> {
    seq(|prepared|, j requires 0 <= j < |prepared| => PathTasks(files, prepared[j], createBackup, sum))
  }

  function Flat(parts: seq<seq<Task>>, i: nat): seq<Task>
    requires i <= |parts|
    decreases |parts| - i
  {
    if i == |parts| then [] else parts[i] + Flat(parts, i + 1)
  }

  function AllTasks(files: Files, prepared: seq<Prepared>, createBackup: bool, sum: Bytes -> Bytes): seq<Task> {
    Flat(Parts(files, prepared, createBackup, sum), 0)
  }

  // ---- the rollback --------------------------------------------------------------------------

  // The fault leaves a temporary file that the rollback has to write again.
  predicate Strands(fault: Fault, t: Task, files: Files) {
    && fault == BeforeRename && t.Put? && (t.file.kind == Settings || t.file.kind == Manifest)
    && Content(files, t.file).Some?
  }

  ghost predicate LeftElsewhere(temps: set<File>, prepared: seq<Prepared>, n: nat)
    requires n <= |prepared|
  {
    forall f, j :: f in temps && 0 <= j < n ==> f.owner != prepared[j].path
  }

  lemma NotStuck(d: Drive, prepared: seq<Prepared>, n: nat)
    requires 0 < n <= |prepared| && LeftElsewhere(d.temps, prepared, n)
    ensures !Stuck(d.temps, RestoreTasks(d.files, prepared[n - 1])) && LeftElsewhere(d.temps, prepared, n - 1)
  {
    PathTasksOwner(d.files, prepared[n - 1], false, b => b);
  }

  lemma RunClearFrom(faults: Faults, d: Drive, tasks: seq<Task>)
    requires ClearFrom(faults, d.writes)
    ensures var r := RunTasks(faults, d, tasks);
            (r.0 <==> !Stuck(d.temps, tasks)) && r.1.temps == d.temps && ClearFrom(faults, r.1.writes)
  {
    assert Clear(faults, d.writes, d.writes + |tasks|);
    RunClear(faults, d, tasks);
  }

  // Without further faults, leftovers of other paths do not stop a rollback.
  lemma {:induction false} RollbackWorks(faults: Faults, d: Drive, prepared: seq<Prepared>, n: nat)
    requires n <= |prepared| && ClearFrom(faults, d.writes)
    requires LeftElsewhere(d.temps, prepared, n)
    ensures RolledBack(faults, d, prepared, n).0
    decreases n
  {
    if n > 0 {
      var tasks := RestoreTasks(d.files, prepared[n - 1]);
      NotStuck(d, prepared, n);
      RunClearFrom(faults, d, tasks);
      RollbackWorks(faults, RunTasks(faults, d, tasks).1, prepared, n - 1);
    }
  }

  // The rollback after one fault on path i fails exactly when that path is stuck.
  lemma RollbackStuck(faults: Faults, d: Drive, prepared: seq<Prepared>, i: nat)
    requires Distinct(prepared) && i < |prepared| && ClearFrom(faults, d.writes)
    requires forall f :: f in d.temps ==> f.owner == prepared[i].path
    ensures RolledBack(faults, d, prepared, i + 1).0 <==> !Stuck(d.temps, RestoreTasks(d.files, prepared[i]))
  {
    var tasks := RestoreTasks(d.files, prepared[i]);
    RunClearFrom(faults, d, tasks);
    var r := RunTasks(faults, d, tasks);
    if r.0 {
      assert LeftElsewhere(d.temps, prepared, i);
      RollbackWorks(faults, r.1, prepared, i);
    }
  }

  lemma StuckExactly(files: Files, p: Prepared, fault: Fault, t: Task)
    requires t.file.owner == p.path
    ensures Stuck(Leftover(fault, t), RestoreTasks(files, p)) <==>
              && fault == BeforeRename && t.Put?
              && ((t.file.kind == Settings && p.original.Some?)
                  || (t.file.kind == Manifest && p.originalManifest.Some?))
  {
    var tasks := RestoreTasks(files, p);
    var settings, manifest := File(p.path, Settings), File(p.path, Manifest);
    if p.original.Some? {
      assert Put(settings, p.original.value) in tasks;
    }
    if p.originalManifest.Some? {
      assert Put(manifest, p.originalManifest.value) in tasks;
    }
  }

  // ---- one fault -----------------------------------------------------------------------------

  function ErrorOf(faults: Faults, k: nat, tasks: seq<Task>, at: nat, files: Files): Option<CommitError> {
    if k < at || k - at >= |tasks| then None
    else if Strands(faults(k), tasks[k - at], files) then Some(RollbackFailed)
    else Some(UpdateFailed)
  }

  // Path i is committed without a fault, from one drive to the next.
  ghost predicate Goes(faults: Faults, sum: Bytes -> Bytes, prepared: seq<Prepared>, createBackup: bool, i: nat,
                       d: Drive, r: Drive)
  {
    i < |prepared| && RunTasks(faults, d, PathTasks(d.files, prepared[i], createBackup, sum)) == (true, r)
  }

  ghost predicate GoesAll(faults: Faults, sum: Bytes -> Bytes, prepared: seq<Prepared>, createBackup: bool,
                          ds: seq<Drive>)
  {
    ds != [] && |ds| <= |prepared| + 1
    && forall j: nat :: j + 1 < |ds| ==> Goes(faults, sum, prepared, createBackup, j, ds[j], ds[j + 1])
  }

  lemma {:induction false} CommittedOn(faults: Faults, sum: Bytes -> Bytes, prepared: seq<Prepared>,
                                       createBackup: bool, ds: seq<Drive>, j: nat)
    requires GoesAll(faults, sum, prepared, createBackup, ds) && j < |ds|
    ensures Committed(faults, sum, ds[0], prepared, 0, createBackup)
         == Committed(faults, sum, ds[j], prepared, j, createBackup)
  {
    if j > 0 {
      CommittedOn(faults, sum, prepared, createBackup, ds, j - 1);
      assert Goes(faults, sum, prepared, createBackup, j - 1, ds[j - 1], ds[j]);
    }
  }

  lemma CommittedBack(faults: Faults, sum: Bytes -> Bytes, d: Drive, prepared: seq<Prepared>, i: nat,
                      createBackup: bool, r: Drive, stuck: bool)
    requires i < |prepared| && RunTasks(faults, d, PathTasks(d.files, prepared[i], createBackup, sum)) == (false, r)
    requires RolledBack(faults, r, prepared, i + 1).0 <==> !stuck
    ensures Committed(faults, sum, d, prepared, i, createBackup).0
         == Some(if stuck then RollbackFailed else UpdateFailed)
  {
  }

  lemma StrandsExactly(files: Files, now: Files, p: Prepared, createBackup: bool, sum: Bytes -> Bytes, fault: Fault,
                       m: nat)
    requires m < |PathTasks(files, p, createBackup, sum)| && AsRead(files, p)
    ensures var t := PathTasks(files, p, createBackup, sum)[m];
            && (forall f :: f in Leftover(fault, t) ==> f.owner == p.path)
            && (Strands(fault, t, files) <==> Stuck(Leftover(fault, t), RestoreTasks(now, p)))
  {
    var tasks := PathTasks(files, p, createBackup, sum);
    assert tasks[m] in tasks;
    PathTasksOwner(files, p, createBackup, sum);
    StuckExactly(now, p, fault, tasks[m]);
  }

  lemma FaultOnPath(faults: Faults, sum: Bytes -> Bytes, d: Drive, prepared: seq<Prepared>, i: nat,
                    createBackup: bool, k: nat)
    requires Distinct(prepared) && i < |prepared| && AsRead(d.files, prepared[i]) && d.temps == {}
    requires OnlyFault(faults, d.writes, k)
    requires k < d.writes + |PathTasks(d.files, prepared[i], createBackup, sum)|
    ensures var tasks := PathTasks(d.files, prepared[i], createBackup, sum);
            Committed(faults, sum, d, prepared, i, createBackup).0 == ErrorOf(faults, k, tasks, d.writes, d.files)
  {
    var tasks := PathTasks(d.files, prepared[i], createBackup, sum);
    var r := RunTasks(faults, d, tasks).1;
    RunFault(faults, d, tasks, k);
    StrandsExactly(d.files, r.files, prepared[i], createBackup, sum, faults(k), k - d.writes);
    RollbackStuck(faults, r, prepared, i);
    CommittedBack(faults, sum, d, prepared, i, createBackup, r, Strands(faults(k), tasks[k - d.writes], d.files));
  }

  // ---- paths that are finished before the fault ------------------------------------------------

  // The paths from i on are as they first were.
  ghost predicate Ahead(first: Files, now: Files, prepared: seq<Prepared>, i: nat) {
    forall j :: i <= j < |prepared| ==> SameAt(first, now, prepared[j].path)
  }

  // The parts are the operations of the paths on the first files.
  ghost predicate Fits(parts: seq<seq<Task>>, first: Files, prepared: seq<Prepared>, createBackup: bool,
                       sum: Bytes -> Bytes)
  {
    |parts| == |prepared| && forall j :: 0 <= j < |prepared| ==> FitsAt(parts, first, prepared, j, createBackup, sum)
  }

  ghost predicate FitsAt(parts: seq<seq<Task>>, first: Files, prepared: seq<Prepared>, j: int, createBackup: bool,
                         sum: Bytes -> Bytes)
    requires |parts| == |prepared| && 0 <= j < |prepared|
  {
    parts[j] == PathTasks(first, prepared[j], createBackup, sum)
  }

  lemma AheadNow(parts: seq<seq<Task>>, first: Files, now: Files, prepared: seq<Prepared>, i: nat, createBackup: bool,
                 sum: Bytes -> Bytes)
    requires i < |prepared| && Ahead(first, now, prepared, i) && AllAsRead(first, prepared)
    requires Fits(parts, first, prepared, createBackup, sum)
    ensures AsRead(now, prepared[i]) && SameAt(first, now, prepared[i].path)
    ensures parts[i] == PathTasks(now, prepared[i], createBackup, sum)
    ensures forall t :: t in parts[i] ==> t.file.owner == prepared[i].path
  {
    assert FitsAt(parts, first, prepared, i, createBackup, sum);
    PathTasksSame(first, now, prepared[i], createBackup, sum);
    PathTasksOwner(first, prepared[i], createBackup, sum);
    assert AsRead(first, prepared[i]) && SameAt(first, now, prepared[i].path);
  }

  lemma ErrorSame(faults: Faults, k: nat, tasks: seq<Task>, at: nat, a: Files, b: Files, owner: nat)
    requires SameAt(a, b, owner) && forall t :: t in tasks ==> t.file.owner == owner
    ensures ErrorOf(faults, k, tasks, at, a) == ErrorOf(faults, k, tasks, at, b)
  {
    if at <= k < at + |tasks| {
      assert tasks[k - at] in tasks;
    }
  }

  // A fault that is still to come lets path i finish and the rest be as it was.
  lemma Passed(faults: Faults, sum: Bytes -> Bytes, d: Drive, prepared: seq<Prepared>, i: nat, createBackup: bool,
               k: nat)
      returns (r: Drive)
    requires Distinct(prepared) && i < |prepared| && d.temps == {} && OnlyFault(faults, d.writes, k)
    requires k >= d.writes + |PathTasks(d.files, prepared[i], createBackup, sum)|
    ensures Goes(faults, sum, prepared, createBackup, i, d, r)
    ensures r.temps == {} && r.writes == d.writes + |PathTasks(d.files, prepared[i], createBackup, sum)|
    ensures OnlyFault(faults, r.writes, k) && Updated(r.files, prepared[i])
    ensures forall owner: nat :: owner != prepared[i].path ==> SameAt(d.files, r.files, owner)
  {
    var tasks := PathTasks(d.files, prepared[i], createBackup, sum);
    assert Clear(faults, d.writes, d.writes + |tasks|);
    RunClear(faults, d, tasks);
    PathRun(faults, sum, d, prepared[i], createBackup);
    r := RunTasks(faults, d, tasks).1;
    forall owner: nat | owner != prepared[i].path ensures SameAt(d.files, r.files, owner) {
      PathRunElsewhere(faults, sum, d, prepared[i], createBackup, owner);
    }
  }

  lemma StillAhead(first: Files, before: Files, after: Files, prepared: seq<Prepared>, i: nat)
    requires Distinct(prepared) && i < |prepared| && Ahead(first, before, prepared, i)
    requires forall owner: nat :: owner != prepared[i].path ==> SameAt(before, after, owner)
    ensures Ahead(first, after, prepared, i + 1)
  {
    forall j | i + 1 <= j < |prepared| ensures SameAt(first, after, prepared[j].path) {
      assert SameAt(first, before, prepared[j].path) && SameAt(before, after, prepared[j].path);
    }
  }

  lemma ErrorHere(faults: Faults, k: nat, parts: seq<seq<Task>>, i: nat, at: nat, files: Files)
    requires i < |parts| && at <= k < at + |parts[i]|
    ensures ErrorOf(faults, k, Flat(parts, i), at, files) == ErrorOf(faults, k, parts[i], at, files)
    ensures Flat(parts, i)[k - at] == parts[i][k - at]
  {
  }

  lemma ErrorLater(faults: Faults, k: nat, parts: seq<seq<Task>>, i: nat, at: nat, files: Files)
    requires i < |parts| && at + |parts[i]| <= k
    ensures ErrorOf(faults, k, Flat(parts, i), at, files)
         == ErrorOf(faults, k, Flat(parts, i + 1), at + |parts[i]|, files)
  {
  }

  lemma FlatLater(parts: seq<seq<Task>>, i: nat, m: nat, later: nat)
    requires i < |parts| && m == |parts[i]| + later && later < |Flat(parts, i + 1)|
    ensures m < |Flat(parts, i)| && Flat(parts, i)[m] == Flat(parts, i + 1)[later]
  {
  }

  // The paths before i are committed, the others as they were read.
  ghost predicate HalfDone(files: Files, prepared: seq<Prepared>, i: nat)
    requires i <= |prepared|
  {
    (forall j :: 0 <= j < i ==> Updated(files, prepared[j])) && AsReadFrom(files, prepared, i, |prepared|)
  }

  // A commit that comes to path i with the fault still to come.
  ghost predicate Coming(faults: Faults, first: Files, d: Drive, prepared: seq<Prepared>, i: nat, k: nat) {
    && Distinct(prepared) && i <= |prepared| && d.temps == {} && OnlyFault(faults, d.writes, k)
    && AllAsRead(first, prepared) && Ahead(first, d.files, prepared, i) && HalfDone(d.files, prepared, i)
  }

  // The operation that failed was one of path at, and the commit got no further.
  ghost predicate Stopped(t: Task, files: Files, prepared: seq<Prepared>, at: nat)
    requires at < |prepared|
  {
    t.file.owner == prepared[at].path && HalfDone(files, prepared, at)
  }

  lemma FaultHere(faults: Faults, sum: Bytes -> Bytes, parts: seq<seq<Task>>, first: Files, d: Drive,
                  prepared: seq<Prepared>, i: nat, createBackup: bool, k: nat)
    requires Fits(parts, first, prepared, createBackup, sum)
    requires i < |prepared| && Coming(faults, first, d, prepared, i, k) && k < d.writes + |parts[i]|
    ensures var c := Committed(faults, sum, d, prepared, i, createBackup);
            && c.0 == ErrorOf(faults, k, parts[i], d.writes, first)
            && (c.0 == Some(RollbackFailed) ==> Stopped(parts[i][k - d.writes], c.1.files, prepared, i))
  {
    AheadNow(parts, first, d.files, prepared, i, createBackup, sum);
    FaultOnPath(faults, sum, d, prepared, i, createBackup, k);
    ErrorSame(faults, k, parts[i], d.writes, first, d.files, prepared[i].path);
    if Strands(faults(k), parts[i][k - d.writes], d.files) {
      StrandedHere(faults, sum, parts, first, d, prepared, i, createBackup, k);
    }
  }

  lemma FaultLater(faults: Faults, sum: Bytes -> Bytes, parts: seq<seq<Task>>, first: Files, d: Drive,
                   prepared: seq<Prepared>, i: nat, createBackup: bool, k: nat)
      returns (r: Drive)
    requires Fits(parts, first, prepared, createBackup, sum)
    requires i < |prepared| && Coming(faults, first, d, prepared, i, k) && k >= d.writes + |parts[i]|
    ensures Goes(faults, sum, prepared, createBackup, i, d, r)
    ensures Coming(faults, first, r, prepared, i + 1, k) && r.writes == d.writes + |parts[i]|
  {
    AheadNow(parts, first, d.files, prepared, i, createBackup, sum);
    r := Passed(faults, sum, d, prepared, i, createBackup, k);
    StillAhead(first, d.files, r.files, prepared, i);
    HalfDoneNext(d.files, r.files, prepared, i);
  }

  // How many operations the paths from i up to another have.
  function Upto(parts: seq<seq<Task>>, i: nat, at: nat): nat
    requires i <= at <= |parts|
    decreases at - i
  {
    if i == at then 0 else |parts[i]| + Upto(parts, i + 1, at)
  }

  lemma {:induction false} SkipTo(faults: Faults, k: nat, parts: seq<seq<Task>>, i: nat, at: nat, w: nat, files: Files)
    requires i <= at <= |parts| && w + Upto(parts, i, at) <= k
    ensures ErrorOf(faults, k, Flat(parts, i), w, files)
         == ErrorOf(faults, k, Flat(parts, at), w + Upto(parts, i, at), files)
    decreases at - i
  {
    if i < at {
      ErrorLater(faults, k, parts, i, w, files);
      SkipTo(faults, k, parts, i + 1, at, w + |parts[i]|, files);
    }
  }

  lemma {:induction false} FlatAt(parts: seq<seq<Task>>, i: nat, at: nat, m: nat)
    requires i <= at < |parts| && m < |parts[at]|
    ensures Upto(parts, i, at) + m < |Flat(parts, i)| && Flat(parts, i)[Upto(parts, i, at) + m] == parts[at][m]
    decreases at - i
  {
    if i < at {
      FlatAt(parts, i + 1, at, m);
      FlatLater(parts, i, Upto(parts, i, at) + m, Upto(parts, i + 1, at) + m);
    }
  }

  // The commit goes on to the path that meets the fault, if there is one.
  lemma {:induction false} FaultReached(faults: Faults, sum: Bytes -> Bytes, parts: seq<seq<Task>>, first: Files,
                                        ds: seq<Drive>, prepared: seq<Prepared>, createBackup: bool, k: nat)
      returns (more: seq<Drive>)
    requires GoesAll(faults, sum, prepared, createBackup, ds) && Fits(parts, first, prepared, createBackup, sum)
    requires Coming(faults, first, ds[|ds| - 1], prepared, |ds| - 1, k)
    requires ds[|ds| - 1].writes == ds[0].writes + Upto(parts, 0, |ds| - 1)
    ensures GoesAll(faults, sum, prepared, createBackup, more) && more[0] == ds[0]
    ensures Coming(faults, first, more[|more| - 1], prepared, |more| - 1, k)
    ensures more[|more| - 1].writes == ds[0].writes + Upto(parts, 0, |more| - 1)
    ensures |more| - 1 < |prepared| ==> k < more[|more| - 1].writes + |parts[|more| - 1]|
    decreases |prepared| + 1 - |ds|
  {
    var i, d := |ds| - 1, ds[|ds| - 1];
    if i < |prepared| && k >= d.writes + |parts[i]| {
      var r := FaultLater(faults, sum, parts, first, d, prepared, i, createBackup, k);
      UptoNext(parts, 0, i);
      more := FaultReached(faults, sum, parts, first, ds + [r], prepared, createBackup, k);
    } else {
      more := ds;
    }
  }

  lemma {:induction false} UptoNext(parts: seq<seq<Task>>, i: nat, at: nat)
    requires i <= at < |parts|
    ensures Upto(parts, i, at + 1) == Upto(parts, i, at) + |parts[at]|
    decreases at - i
  {
    if i < at {
      UptoNext(parts, i + 1, at);
    }
  }

  // How the commit ends, seen at the path that meets the fault.
  lemma FaultMet(faults: Faults, sum: Bytes -> Bytes, parts: seq<seq<Task>>, d: Drive, prepared: seq<Prepared>,
                 createBackup: bool, k: nat)
      returns (at: nat, w: nat)
    requires Coming(faults, d.files, d, prepared, 0, k) && Fits(parts, d.files, prepared, createBackup, sum)
    ensures at <= |prepared| && w == d.writes + Upto(parts, 0, at) && w <= k
    ensures at < |prepared| ==> k < w + |parts[at]|
    ensures var c := Committed(faults, sum, d, prepared, 0, createBackup);
            if at == |prepared| then c.0 == None
            else
              && c.0 == ErrorOf(faults, k, parts[at], w, d.files)
              && (c.0 == Some(RollbackFailed) ==> Stopped(parts[at][k - w], c.1.files, prepared, at))
  {
    var ds := FaultReached(faults, sum, parts, d.files, [d], prepared, createBackup, k);
    at := |ds| - 1;
    w := ds[at].writes;
    CommittedOn(faults, sum, prepared, createBackup, ds, at);
    if at < |prepared| {
      FaultHere(faults, sum, parts, d.files, ds[at], prepared, at, createBackup, k);
    }
  }

  lemma OneFaultFrom(faults: Faults, sum: Bytes -> Bytes, parts: seq<seq<Task>>, d: Drive, prepared: seq<Prepared>,
                     createBackup: bool, k: nat)
      returns (at: nat)
    requires Coming(faults, d.files, d, prepared, 0, k) && Fits(parts, d.files, prepared, createBackup, sum)
    ensures var c := Committed(faults, sum, d, prepared, 0, createBackup);
            && c.0 == ErrorOf(faults, k, Flat(parts, 0), d.writes, d.files)
            && (c.0 == Some(RollbackFailed) ==>
                  at < |prepared| && Stopped(Flat(parts, 0)[k - d.writes], c.1.files, prepared, at))
  {
    var w;
    at, w := FaultMet(faults, sum, parts, d, prepared, createBackup, k);
    SkipTo(faults, k, parts, 0, at, d.writes, d.files);
    if at < |prepared| {
      ErrorHere(faults, k, parts, at, w, d.files);
      FlatAt(parts, 0, at, k - w);
    }
  }

  lemma PartsFit(first: Files, prepared: seq<Prepared>, createBackup: bool, sum: Bytes -> Bytes)
    ensures Fits(Parts(first, prepared, createBackup, sum), first, prepared, createBackup, sum)
  {
  }

  // A commit on a disk without leftovers that meets one fault, at operation k. Beyond the
  // operations it has, it works. Otherwise it is undone, and undoing fails exactly when the
  // fault came before the rename of settings or a manifest that had been there before.
  lemma OneFault(faults: Faults, sum: Bytes -> Bytes, d: Drive, prepared: seq<Prepared>, createBackup: bool, k: nat)
    requires Distinct(prepared) && AllAsRead(d.files, prepared) && d.temps == {} && OnlyFault(faults, d.writes, k)
    ensures var tasks := AllTasks(d.files, prepared, createBackup, sum);
            var error := Committed(faults, sum, d, prepared, 0, createBackup).0;
            && (error == None <==> k - d.writes >= |tasks|)
            && (error == Some(RollbackFailed) <==>
                  k - d.writes < |tasks| && Strands(faults(k), tasks[k - d.writes], d.files))
  {
    PartsFit(d.files, prepared, createBackup, sum);
    var _ := OneFaultFrom(faults, sum, Parts(d.files, prepared, createBackup, sum), d, prepared, createBackup, k);
  }

  // ---- what a failed rollback leaves ---------------------------------------------------------

  lemma {:induction false} RunFaultKeeps(faults: Faults, d: Drive, tasks: seq<Task>, k: nat)
    requires d.temps == {} && OnlyFault(faults, d.writes, k) && k < d.writes + |tasks| && faults(k) == BeforeRename
    ensures OnlyTasks(d.files, RunTasks(faults, d, tasks).1.files, tasks[..k - d.writes])
    decreases |tasks|
  {
    var step := Do(faults, d, tasks[0]);
    if d.writes < k {
      RunFaultKeeps(faults, step.1, tasks[1..], k);
      var sooner, later := tasks[..k - d.writes], tasks[1..][..k - step.1.writes];
      assert sooner == [tasks[0]] + later;
      assert tasks[0] in sooner && forall t :: t in later ==> t in sooner;
    }
  }

  // The settings come before the manifest, and each at most once.
  lemma PathTasksOnce(files: Files, p: Prepared, createBackup: bool, sum: Bytes -> Bytes, m: nat)
    requires m < |PathTasks(files, p, createBackup, sum)|
    ensures var tasks := PathTasks(files, p, createBackup, sum);
            && (forall t :: t in tasks[..m] ==> t.file != File(p.path, Manifest))
            && (tasks[m].file.kind == Settings ==> forall t :: t in tasks[..m] ==> t.file != File(p.path, Settings))
  {
    var tasks := PathTasks(files, p, createBackup, sum);
    var backup := if createBackup then BackupTasks(files, p, sum) else [];
    var settings := OptionalTasks(files, File(p.path, Settings), p.updated);
    BackupTasksKinds(files, p, sum);
    assert tasks == backup + settings + OptionalTasks(files, File(p.path, Manifest), p.updatedManifest);
    assert m >= |backup| + |settings| ==> tasks[..m] == backup + settings;
    assert m < |backup| ==> tasks[m] in backup;
    forall t | t in tasks[..m] ensures t in backup || t in settings {
      assert t in (backup + settings)[..m] || m >= |backup| + |settings|;
    }
  }

  // Restoring a path with one of its temporary files left stops at that file.
  lemma RestoreStops(faults: Faults, d: Drive, p: Prepared, kind: FileKind)
    requires ClearFrom(faults, d.writes) && d.temps == {File(p.path, kind)}
    requires kind == Settings || kind == Manifest
    requires if kind == Settings then p.original.Some? else p.originalManifest.Some?
    requires Content(d.files, File(p.path, Manifest)) == p.originalManifest
    requires kind == Settings ==> Content(d.files, File(p.path, Settings)) == p.original
    ensures var r := RunTasks(faults, d, RestoreTasks(d.files, p)); !r.0 && AsRead(r.1.files, p)
  {
    var first := OptionalTasks(d.files, File(p.path, Settings), p.original);
    var second := OptionalTasks(d.files, File(p.path, Manifest), p.originalManifest);
    RunAppend(faults, d, first, second);
    if kind == Settings {
      RunSingle(faults, d, first[0]);
    } else {
      assert Clear(faults, d.writes, d.writes + |first|);
      RunClear(faults, d, first);
      OptionalRun(faults, d, File(p.path, Settings), p.original);
      RunSingle(faults, RunTasks(faults, d, first).1, second[0]);
    }
  }

  lemma StrandedPath(faults: Faults, sum: Bytes -> Bytes, d: Drive, prepared: seq<Prepared>, i: nat, createBackup: bool,
                     k: nat)
    requires Distinct(prepared) && i < |prepared| && AsRead(d.files, prepared[i]) && d.temps == {}
    requires OnlyFault(faults, d.writes, k)
    requires k < d.writes + |PathTasks(d.files, prepared[i], createBackup, sum)|
    requires Strands(faults(k), PathTasks(d.files, prepared[i], createBackup, sum)[k - d.writes], d.files)
    ensures var after := Committed(faults, sum, d, prepared, i, createBackup).1.files;
            AsRead(after, prepared[i])
            && forall owner: nat :: owner != prepared[i].path ==> SameAt(d.files, after, owner)
  {
    var tasks := PathTasks(d.files, prepared[i], createBackup, sum);
    var m := k - d.writes;
    RunFault(faults, d, tasks, k);
    RunFaultKeeps(faults, d, tasks, k);
    PathTasksOnce(d.files, prepared[i], createBackup, sum, m);
    PathTasksOwner(d.files, prepared[i], createBackup, sum);
    assert tasks[m] in tasks;
    var r := RunTasks(faults, d, tasks).1;
    assert tasks[m].file == File(prepared[i].path, tasks[m].file.kind);
    RestoreStops(faults, r, prepared[i], tasks[m].file.kind);
    forall owner: nat | owner != prepared[i].path
      ensures SameAt(d.files, RunTasks(faults, r, RestoreTasks(r.files, prepared[i])).1.files, owner)
    {
      PathRunElsewhere(faults, sum, d, prepared[i], createBackup, owner);
      PathRunElsewhere(faults, sum, r, prepared[i], createBackup, owner);
    }
  }

  lemma StrandedHere(faults: Faults, sum: Bytes -> Bytes, parts: seq<seq<Task>>, first: Files, d: Drive,
                     prepared: seq<Prepared>, i: nat, createBackup: bool, k: nat)
    requires Fits(parts, first, prepared, createBackup, sum)
    requires i < |prepared| && Coming(faults, first, d, prepared, i, k)
    requires k < d.writes + |parts[i]| && ErrorOf(faults, k, parts[i], d.writes, first) == Some(RollbackFailed)
    ensures parts[i][k - d.writes].file.owner == prepared[i].path
    ensures HalfDone(Committed(faults, sum, d, prepared, i, createBackup).1.files, prepared, i)
  {
    AheadNow(parts, first, d.files, prepared, i, createBackup, sum);
    ErrorSame(faults, k, parts[i], d.writes, first, d.files, prepared[i].path);
    assert parts[i][k - d.writes] in parts[i];
    StrandedPath(faults, sum, d, prepared, i, createBackup, k);
    HalfDoneSame(d.files, Committed(faults, sum, d, prepared, i, createBackup).1.files, prepared, i);
  }

  lemma HalfDoneSame(before: Files, after: Files, prepared: seq<Prepared>, i: nat)
    requires Distinct(prepared) && i < |prepared| && HalfDone(before, prepared, i) && AsRead(after, prepared[i])
    requires forall owner: nat :: owner != prepared[i].path ==> SameAt(before, after, owner)
    ensures HalfDone(after, prepared, i)
  {
    forall j | 0 <= j < |prepared| && j != i ensures SameAt(before, after, prepared[j].path) {
    }
  }

  lemma HalfDoneNext(before: Files, after: Files, prepared: seq<Prepared>, i: nat)
    requires Distinct(prepared) && i < |prepared| && HalfDone(before, prepared, i) && Updated(after, prepared[i])
    requires forall owner: nat :: owner != prepared[i].path ==> SameAt(before, after, owner)
    ensures HalfDone(after, prepared, i + 1)
  {
    forall j | 0 <= j < |prepared| && j != i ensures SameAt(before, after, prepared[j].path) {
    }
    forall j | 0 <= j < i ensures Updated(after, prepared[j]) {
      assert SameAt(before, after, prepared[j].path);
    }
  }

  // A rollback that fails after one fault leaves every path before the one that met it with
  // its new settings and manifest, and that path and the later ones as they were read.
  lemma StrandedCommit(faults: Faults, sum: Bytes -> Bytes, d: Drive, prepared: seq<Prepared>, createBackup: bool,
                       k: nat)
      returns (at: nat)
    requires Distinct(prepared) && AllAsRead(d.files, prepared) && d.temps == {} && OnlyFault(faults, d.writes, k)
    requires Committed(faults, sum, d, prepared, 0, createBackup).0 == Some(RollbackFailed)
    ensures at < |prepared| && k - d.writes < |AllTasks(d.files, prepared, createBackup, sum)|
    ensures AllTasks(d.files, prepared, createBackup, sum)[k - d.writes].file.owner == prepared[at].path
    ensures HalfDone(Committed(faults, sum, d, prepared, 0, createBackup).1.files, prepared, at)
  {
    PartsFit(d.files, prepared, createBackup, sum);
    at := OneFaultFrom(faults, sum, Parts(d.files, prepared, createBackup, sum), d, prepared, createBackup, k);
  }

  // ---- an instance ---------------------------------------------------------------------------

  // Two hosts with settings, no manifest and no backup yet.
  const TwoFiles: Files := map[File(0, Settings) := Some("a"), File(1, Settings) := Some("b")]

  const TwoPrepared: seq<Prepared> := [Prepared(0, Some("a"), Some("A"), None, Some("M")),
                                       Prepared(1, Some("b"), Some("B"), None, Some("N"))]

  // Operations 0 to 3 install for the first host, 4 and 5 back up the second; 6 writes its settings.
  function SeventhFails(k: nat): Fault {
    if k == 6 then BeforeRename else NoFault
  }

  // One fault: the commit fails, so does its rollback, and the first host stays changed.
  lemma OneFaultLeavesHalf(sum: Bytes -> Bytes)
    ensures var c := Committed(SeventhFails, sum, Drive(TwoFiles, {}, 0), TwoPrepared, 0, true);
            && c.0 == Some(RollbackFailed)
            && Content(c.1.files, File(0, Settings)) == Some("A") != Content(TwoFiles, File(0, Settings))
            && Content(c.1.files, File(1, Settings)) == Some("b")
  {
    var d := Drive(TwoFiles, {}, 0);
    var p, q := TwoPrepared[0], TwoPrepared[1];
    var parts := Parts(TwoFiles, TwoPrepared, true, sum);
    var tasks := AllTasks(TwoFiles, TwoPrepared, true, sum);
    var rest := Flat(parts, 1);
    assert tasks == parts[0] + rest && rest == parts[1] + Flat(parts, 2);
    assert parts[0] == PathTasks(TwoFiles, p, true, sum) && parts[1] == PathTasks(TwoFiles, q, true, sum);
    assert |parts[0]| == 4 && parts[1][2] == Put(File(1, Settings), "B");
    assert tasks[6] == rest[2] == Put(File(1, Settings), "B");
    assert AllAsRead(TwoFiles, TwoPrepared);
    OneFault(SeventhFails, sum, d, TwoPrepared, true, 6);
    var at := StrandedCommit(SeventhFails, sum, d, TwoPrepared, true, 6);
    assert at == 1;
    var after := Committed(SeventhFails, sum, d, TwoPrepared, 0, true).1.files;
    assert Updated(after, p) && AsRead(after, q);
  }
}

// A disk that may fail at any write, and lists of file operations run on it.
module Drives {
  import opened Wrappers

  type Bytes = string

  datatype FileKind = Settings | Manifest | Backup | BackupSum

  // A file of one host's settings directory; owner numbers the settings path.
  datatype File = File(owner: nat, kind: FileKind)

  // A file that is not in the map is absent, like one mapped to None.
  type Files = map<File, Option<Bytes>>

  function Content(files: Files, f: File): Option<Bytes> {
    if f in files then files[f] else None
  }

  // Where a write stops, if it does: before its temporary file exists, before the rename
  // (the temporary file stays), or after the rename (the content has changed).
  datatype Fault = NoFault | BeforeCreate | BeforeRename | AfterRename

  type Faults = nat -> Fault

  // The files, the temporary files this process left, and the writes and removals so far,
  // which number the faults.
  datatype Drive = Drive(files: Files, temps: set<File>, writes: nat)

  datatype Task = Put(file: File, bytes: Bytes) | Drop(file: File)

  // One operation: whether it worked, and the drive afterwards.
  function Do(faults: Faults, d: Drive, t: Task): (bool, Drive) {
    var fault := faults(d.writes);
    match t
    case Put(f, bytes) =>
      if f in d.temps then (false, d.(writes := d.writes + 1))
      else (fault == NoFault,
            Drive(if fault == NoFault || fault == AfterRename then d.files[f := Some(bytes)] else d.files,
                  if fault == BeforeRename then d.temps + {f} else d.temps, d.writes + 1))
    case Drop(f) =>
      (fault == NoFault, Drive(if fault == NoFault then d.files[f := None] else d.files, d.temps, d.writes + 1))
  }

  // Operations in turn, up to the first that fails.
  function RunTasks(faults: Faults, d: Drive, tasks: seq<Task>): (bool, Drive)
    decreases |tasks|
  {
    if tasks == [] then (true, d)
    else
      var step := Do(faults, d, tasks[0]);
      if step.0 then RunTasks(faults, step.1, tasks[1..]) else step
  }

  lemma {:induction false} RunAppend(faults: Faults, d: Drive, a: seq<Task>, b: seq<Task>)
    ensures var first := RunTasks(faults, d, a);
            RunTasks(faults, d, a + b) == if first.0 then RunTasks(faults, first.1, b) else first
    decreases |a|
  {
    if a == [] {
      assert a + b == b;
    } else {
      assert (a + b)[1..] == a[1..] + b;
      var step := Do(faults, d, a[0]);
      if step.0 {
        RunAppend(faults, step.1, a[1..], b);
      }
    }
  }

  lemma RunSingle(faults: Faults, d: Drive, t: Task)
    ensures RunTasks(faults, d, [t]) == Do(faults, d, t)
  {
    var step := Do(faults, d, t);
    assert [t][1..] == [];
    assert RunTasks(faults, step.1, []) == (true, step.1);
  }

  // ---- faults --------------------------------------------------------------------------------

  // No fault is due from a count of writes on, before another.
  ghost predicate Clear(faults: Faults, from: nat, to: nat) {
    forall k :: from <= k < to ==> faults(k) == NoFault
  }

  ghost predicate ClearFrom(faults: Faults, from: nat) {
    forall k :: from <= k ==> faults(k) == NoFault
  }

  // The only fault from a count of writes on is the one of write k.
  ghost predicate OnlyFault(faults: Faults, from: nat, k: nat) {
    from <= k && faults(k) != NoFault && forall j :: from <= j && j != k ==> faults(j) == NoFault
  }

  // What a fault leaves behind of an operation.
  function Leftover(fault: Fault, t: Task): set<File> {
    if fault == BeforeRename && t.Put? then {t.file} else {}
  }

  // Nothing but the files of the tasks differs.
  ghost predicate OnlyTasks(before: Files, after: Files, tasks: seq<Task>) {
    forall f: File :: (forall t :: t in tasks ==> t.file != f) ==> Content(after, f) == Content(before, f)
  }

  ghost predicate Stuck(temps: set<File>, tasks: seq<Task>) {
    exists t :: t in tasks && t.Put? && t.file in temps
  }

  lemma {:induction false} RunTouches(faults: Faults, d: Drive, tasks: seq<Task>)
    ensures OnlyTasks(d.files, RunTasks(faults, d, tasks).1.files, tasks)
    decreases |tasks|
  {
    if tasks != [] {
      var step := Do(faults, d, tasks[0]);
      assert tasks[0] in tasks;
      if step.0 {
        RunTouches(faults, step.1, tasks[1..]);
        assert forall t :: t in tasks[1..] ==> t in tasks;
      }
    }
  }

  // Without faults the tasks run through exactly when none of them writes a file whose
  // temporary file was left behind.
  lemma {:induction false} RunClear(faults: Faults, d: Drive, tasks: seq<Task>)
    requires Clear(faults, d.writes, d.writes + |tasks|)
    ensures var r := RunTasks(faults, d, tasks);
            && (r.0 <==> !Stuck(d.temps, tasks)) && r.1.temps == d.temps
            && d.writes <= r.1.writes <= d.writes + |tasks| && (r.0 ==> r.1.writes == d.writes + |tasks|)
    decreases |tasks|
  {
    if tasks != [] {
      var step := Do(faults, d, tasks[0]);
      assert tasks[0] in tasks;
      assert forall t :: t in tasks <==> t == tasks[0] || t in tasks[1..];
      if step.0 {
        RunClear(faults, step.1, tasks[1..]);
      }
    }
  }

  // One fault among the tasks: they stop there, and leave what that operation leaves.
  lemma {:induction false} RunFault(faults: Faults, d: Drive, tasks: seq<Task>, k: nat)
    requires d.temps == {} && OnlyFault(faults, d.writes, k) && k < d.writes + |tasks|
    ensures var r := RunTasks(faults, d, tasks);
            !r.0 && r.1.writes == k + 1 && r.1.temps == Leftover(faults(k), tasks[k - d.writes])
    decreases |tasks|
  {
    var step := Do(faults, d, tasks[0]);
    if d.writes < k {
      RunFault(faults, step.1, tasks[1..], k);
      assert tasks[1..][k - step.1.writes] == tasks[k - d.writes];
    }
  }

  // ---- what results say about faults -----------------------------------------------------------

  // No temporary file was left between two counts of writes.
  ghost predicate Tidy(faults: Faults, from: nat, to: nat) {
    forall k :: from <= k < to ==> faults(k) != BeforeRename
  }

  ghost predicate TwoFaults(faults: Faults, from: nat, to: nat) {
    exists j, k :: from <= j < k < to && faults(j) != NoFault && faults(k) != NoFault
  }

  // From a drive without leftovers, something works exactly when no fault was due, and
  // leaves no temporary file unless a fault stopped a write before its rename.
  ghost predicate Honest(faults: Faults, d: Drive, ok: bool, after: Drive) {
    && d.writes <= after.writes
    && (d.temps == {} ==>
          (ok <==> Clear(faults, d.writes, after.writes))
            && (Tidy(faults, d.writes, after.writes) ==> after.temps == {}))
  }

  lemma HonestThen(faults: Faults, a: Drive, b: Drive, ok: bool, c: Drive)
    requires Honest(faults, a, true, b) && Honest(faults, b, ok, c)
    ensures Honest(faults, a, ok, c)
  {
    if a.temps == {} {
      assert Tidy(faults, a.writes, b.writes);
    }
  }

  // After a failure, whatever follows.
  lemma HonestStill(faults: Faults, a: Drive, b: Drive, ok: bool, c: Drive)
    requires Honest(faults, a, false, b) && Honest(faults, b, ok, c)
    ensures Honest(faults, a, false, c)
  {
    if a.temps == {} && Tidy(faults, a.writes, c.writes) {
      assert Tidy(faults, a.writes, b.writes);
      assert Tidy(faults, b.writes, c.writes);
    }
  }

  lemma DoHonest(faults: Faults, d: Drive, t: Task)
    ensures Honest(faults, d, Do(faults, d, t).0, Do(faults, d, t).1)
  {
    assert faults(d.writes) == NoFault <==> Clear(faults, d.writes, d.writes + 1);
  }

  lemma {:induction false} RunHonest(faults: Faults, d: Drive, tasks: seq<Task>)
    ensures Honest(faults, d, RunTasks(faults, d, tasks).0, RunTasks(faults, d, tasks).1)
    decreases |tasks|
  {
    if tasks != [] {
      var step := Do(faults, d, tasks[0]);
      DoHonest(faults, d, tasks[0]);
      if step.0 {
        RunHonest(faults, step.1, tasks[1..]);
        var rest := RunTasks(faults, step.1, tasks[1..]);
        HonestThen(faults, d, step.1, rest.0, rest.1);
      }
    }
  }

  // Two failures in turn, on a drive without leftovers.
  lemma FailedTwice(faults: Faults, a: Drive, b: Drive, c: Drive)
    requires Honest(faults, a, false, b) && Honest(faults, b, false, c) && a.temps == {}
          && Tidy(faults, a.writes, c.writes)
    ensures TwoFaults(faults, a.writes, c.writes)
  {
    assert Tidy(faults, a.writes, b.writes);
    var j: nat :| a.writes <= j < b.writes && faults(j) != NoFault;
    var k: nat :| b.writes <= k < c.writes && faults(k) != NoFault;
    assert j < k;
  }
}

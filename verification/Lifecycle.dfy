// Any number of installs, then an uninstall: the settings are as they first were.
module Lifecycle {
  import opened Wrappers
  import opened Json
  import opened Patch
  import opened Drives
  import opened Disks
  import opened Installing

  // ---- what a commit does to one settings path -------------------------------------------

  lemma {:induction false} AppliedElsewhere(files: Files, prepared: seq<Prepared>, createBackup: bool,
                                            sum: Bytes -> Bytes, f: File)
    requires forall p :: p in prepared ==> p.path != f.owner
    ensures Content(AllApplied(files, prepared, createBackup, sum), f) == Content(files, f)
  {
    if prepared != [] {
      var n := |prepared| - 1;
      assert prepared[n] in prepared;
      AppliedElsewhere(files, prepared[..n], createBackup, sum, f);
    }
  }

  lemma {:induction false} AppliedAt(files: Files, prepared: seq<Prepared>, i: nat, createBackup: bool,
                                     sum: Bytes -> Bytes, kind: FileKind)
    requires Distinct(prepared) && i < |prepared|
    ensures var f := File(prepared[i].path, kind);
            Content(AllApplied(files, prepared, createBackup, sum), f)
              == Content(Applied(files, prepared[i], createBackup, sum), f)
  {
    var n := |prepared| - 1;
    if i < n {
      var before := AllApplied(files, prepared[..n], createBackup, sum);
      AppliedAt(files, prepared[..n], i, createBackup, sum, kind);
      AppliedOther(before, prepared[n], createBackup, sum, File(prepared[i].path, kind));
    } else {
      forall p | p in prepared[..n] ensures p.path != prepared[n].path {
        var j :| 0 <= j < n && prepared[j] == p;
      }
      AppliedLast(files, prepared, createBackup, sum, kind);
    }
  }

  lemma AppliedOther(files: Files, p: Prepared, createBackup: bool, sum: Bytes -> Bytes, f: File)
    requires f.owner != p.path
    ensures Content(Applied(files, p, createBackup, sum), f) == Content(files, f)
  {
  }

  lemma AppliedLast(files: Files, prepared: seq<Prepared>, createBackup: bool, sum: Bytes -> Bytes, kind: FileKind)
    requires prepared != [] && forall p :: p in prepared[..|prepared| - 1] ==> p.path != prepared[|prepared| - 1].path
    ensures var last := prepared[|prepared| - 1];
            Content(AllApplied(files, prepared, createBackup, sum), File(last.path, kind))
            == Content(Applied(files, last, createBackup, sum), File(last.path, kind))
  {
    var n := |prepared| - 1;
    AppliedElsewhere(files, prepared[..n], createBackup, sum, File(prepared[n].path, kind));
    AppliedElsewhere(files, prepared[..n], createBackup, sum, File(prepared[n].path, Backup));
  }

  // The files of a settings path after its own commit step.
  ghost predicate Committed(before: Files, after: Files, p: Prepared, createBackup: bool) {
    && Content(after, File(p.path, Settings)) == p.updated
    && Content(after, File(p.path, Manifest)) == p.updatedManifest
    && Content(after, File(p.path, Backup))
         == if createBackup && Content(before, File(p.path, Backup)) == None then Some(OrEmpty(p.original))
            else Content(before, File(p.path, Backup))
  }

  // Settings, manifest and backup of a path are the same.
  ghost predicate Untouched(before: Files, after: Files, path: nat) {
    && Content(after, File(path, Settings)) == Content(before, File(path, Settings))
    && Content(after, File(path, Manifest)) == Content(before, File(path, Manifest))
    && Content(after, File(path, Backup)) == Content(before, File(path, Backup))
  }

  lemma CommittedAt(before: Files, after: Files, prepared: seq<Prepared>, i: nat, createBackup: bool,
                    sum: Bytes -> Bytes)
    requires Distinct(prepared) && i < |prepared|
    requires SameContent(after, AllApplied(before, prepared, createBackup, sum))
    ensures Committed(before, after, prepared[i], createBackup)
  {
    AppliedAt(before, prepared, i, createBackup, sum, Settings);
    AppliedAt(before, prepared, i, createBackup, sum, Manifest);
    AppliedAt(before, prepared, i, createBackup, sum, Backup);
  }

  lemma UntouchedAt(before: Files, after: Files, prepared: seq<Prepared>, path: nat, createBackup: bool,
                    sum: Bytes -> Bytes)
    requires forall p :: p in prepared ==> p.path != path
    requires SameContent(after, AllApplied(before, prepared, createBackup, sum))
    ensures Untouched(before, after, path)
  {
    AppliedElsewhere(before, prepared, createBackup, sum, File(path, Settings));
    AppliedElsewhere(before, prepared, createBackup, sum, File(path, Manifest));
    AppliedElsewhere(before, prepared, createBackup, sum, File(path, Backup));
  }

  lemma {:induction false} GatheredAt(prepare: Agent -> Result<Prepared, InstallError>, agents: seq<Agent>)
    requires Gathered(prepare, agents).Ok?
    ensures var prepared := Gathered(prepare, agents).value;
            |prepared| == |agents| && forall i :: 0 <= i < |agents| ==> prepare(agents[i]) == Ok(prepared[i])
  {
    if agents != [] {
      GatheredAt(prepare, agents[..|agents| - 1]);
    }
  }

  lemma PreparedInstalls(c: Codec, files: Files, agents: seq<Agent>, binary: string, rtk: Option<string>)
    requires PrepareInstalls(c, files, agents, binary, rtk).Ok?
    ensures var prepared := PrepareInstalls(c, files, agents, binary, rtk).value;
            |prepared| == |agents|
            && forall i :: 0 <= i < |agents| ==>
                 PrepareInstall(c, files, agents[i], binary, rtk) == Ok(prepared[i])
                   && prepared[i].path == PathOf(agents[i])
  {
    GatheredAt(Preparer(c, files, binary, rtk), agents);
    var prepared := PrepareInstalls(c, files, agents, binary, rtk).value;
    forall i | 0 <= i < |agents|
      ensures PrepareInstall(c, files, agents[i], binary, rtk) == Ok(prepared[i])
           && prepared[i].path == PathOf(agents[i])
    {
      assert Preparer(c, files, binary, rtk)(agents[i]) == Ok(prepared[i]);
    }
  }

  lemma {:induction false} PreparedUninstalls(c: Codec, files: Files, agents: seq<Agent>, binary: string)
    requires PrepareUninstalls(c, files, agents, binary).Ok?
    ensures var prepared := PrepareUninstalls(c, files, agents, binary).value;
            && (forall a :: a in agents ==>
                  var p := PrepareUninstall(c, files, a, binary);
                  p.Ok? && (p.value.Some? ==> p.value.value in prepared && p.value.value.path == PathOf(a)))
            && (forall p :: p in prepared ==> exists a :: a in agents && p.path == PathOf(a))
  {
    if agents != [] {
      var n := |agents| - 1;
      PreparedUninstalls(c, files, agents[..n], binary);
      assert forall a :: a in agents <==> a in agents[..n] || a == agents[n];
    }
  }

  lemma {:induction false} UninstallsDistinct(c: Codec, files: Files, agents: seq<Agent>, binary: string)
    requires NoDuplicates(agents) && PrepareUninstalls(c, files, agents, binary).Ok?
    ensures Distinct(PrepareUninstalls(c, files, agents, binary).value)
  {
    if agents != [] {
      var n := |agents| - 1;
      UninstallsDistinct(c, files, agents[..n], binary);
      PreparedUninstalls(c, files, agents[..n], binary);
      var before := PrepareUninstalls(c, files, agents[..n], binary).value;
      forall i | 0 <= i < |before| ensures before[i].path != PathOf(agents[n]) {
        assert before[i] in before;
        var a :| a in agents[..n] && before[i].path == PathOf(a);
      }
    }
  }

  lemma InstallOf(c: Codec, before: Files, after: Files, agents: seq<Agent>, binary: string, rtk: Option<string>,
                  a: Agent)
    requires Installs(c, before, after, agents, binary, rtk) && a in agents
    ensures PrepareInstall(c, before, a, binary, rtk).Ok?
    ensures Committed(before, after, PrepareInstall(c, before, a, binary, rtk).value, true)
  {
    var prepared := PrepareInstalls(c, before, agents, binary, rtk).value;
    PreparedInstalls(c, before, agents, binary, rtk);
    assert Distinct(prepared);
    var i :| 0 <= i < |agents| && agents[i] == a;
    CommittedAt(before, after, prepared, i, true, c.sum);
  }

  lemma InstallOfOthers(c: Codec, before: Files, after: Files, agents: seq<Agent>, binary: string,
                        rtk: Option<string>, a: Agent)
    requires Installs(c, before, after, agents, binary, rtk) && a !in agents
    ensures Untouched(before, after, PathOf(a))
  {
    var prepared := PrepareInstalls(c, before, agents, binary, rtk).value;
    PreparedInstalls(c, before, agents, binary, rtk);
    UntouchedAt(before, after, prepared, PathOf(a), true, c.sum);
  }

  lemma UninstallOf(c: Codec, before: Files, after: Files, agents: seq<Agent>, binary: string, a: Agent)
    requires Uninstalls(c, before, after, agents, binary) && a in agents
    requires Content(before, File(PathOf(a), Settings)).Some?
    ensures PrepareUninstall(c, before, a, binary).Ok? && PrepareUninstall(c, before, a, binary).value.Some?
    ensures Committed(before, after, PrepareUninstall(c, before, a, binary).value.value, false)
  {
    var prepared := PrepareUninstalls(c, before, agents, binary).value;
    PreparedUninstalls(c, before, agents, binary);
    UninstallsDistinct(c, before, agents, binary);
    var p := PrepareUninstall(c, before, a, binary).value.value;
    var i :| 0 <= i < |prepared| && prepared[i] == p;
    CommittedAt(before, after, prepared, i, false, c.sum);
  }

  lemma UninstallOfOthers(c: Codec, before: Files, after: Files, agents: seq<Agent>, binary: string, a: Agent)
    requires Uninstalls(c, before, after, agents, binary) && a !in agents
    ensures Untouched(before, after, PathOf(a))
  {
    PreparedUninstalls(c, before, agents, binary);
    UntouchedAt(before, after, PrepareUninstalls(c, before, agents, binary).value, PathOf(a), false, c.sum);
  }

  // ---- what a manifest and its backup remember ---------------------------------------------

  function ManifestOf(c: Codec, files: Files, a: Agent): Option<ManifestData> {
    match Content(files, File(PathOf(a), Manifest)) case None => None case Some(bytes) => c.decodeManifest(bytes)
  }

  // Manifest and backup stand for the settings that were there first.
  ghost predicate Remembers(c: Codec, files: Files, a: Agent, first: Option<Bytes>) {
    && Content(files, File(PathOf(a), Backup)) == Some(OrEmpty(first))
    && var m := ManifestOf(c, files, a);
       && m.Some? && m.value.version == 1 && IsAbsolute(m.value.binary)
       && m.value.originalExisted == first.Some?
       && m.value.originalHash == Sha256(OrEmpty(first))
  }

  ghost predicate InstalledIs(c: Codec, files: Files, a: Agent, bytes: Option<Bytes>) {
    bytes.Some? && ManifestOf(c, files, a).Some? && ManifestOf(c, files, a).value.installedHash == Sha256(bytes.value)
  }

  // An install starts to remember, or goes on remembering what it already did.
  lemma InstallRemembers(c: Codec, before: Files, after: Files, agents: seq<Agent>, binary: string, rtk: Option<string>,
                         a: Agent, first: Option<Bytes>)
    requires Faithful(c) && Installs(c, before, after, agents, binary, rtk) && a in agents
    requires if Content(before, File(PathOf(a), Manifest)) == None
             then first == Content(before, File(PathOf(a), Settings))
             else Remembers(c, before, a, first)
    ensures Remembers(c, after, a, first)
    ensures InstalledIs(c, after, a, Content(after, File(PathOf(a), Settings)))
  {
    InstallOf(c, before, after, agents, binary, rtk, a);
    var p := PrepareInstall(c, before, a, binary, rtk).value;
    var previous := ReadManifest(c, p.originalManifest).value;
    var m := NewManifest(before, p.path, p.original, previous, p.updated.value, binary).value;
    assert c.decodeManifest(c.encodeManifest(m)) == Some(m);
    assert ManifestOf(c, after, a) == Some(m);
  }

  datatype Step = InstallStep(agents: seq<Agent>, binary: string, rtk: Option<string>)
    | UninstallStep(agents: seq<Agent>, binary: string)
    | EditStep | FailedStep

  // Edits change settings files only; a failed command was rolled back.
  ghost predicate StepOk(c: Codec, s: Step, before: Files, after: Files) {
    match s
    case InstallStep(agents, binary, rtk) => Installs(c, before, after, agents, binary, rtk)
    case UninstallStep(agents, binary) => Uninstalls(c, before, after, agents, binary)
    case EditStep => forall f: File :: f.kind != Settings ==> Content(after, f) == Content(before, f)
    case FailedStep => NothingInstalled(before, after)
  }

  predicate InstallsAgent(s: Step, a: Agent) {
    s.InstallStep? && a in s.agents
  }

  predicate UninstallsAgent(s: Step, a: Agent) {
    s.UninstallStep? && a in s.agents
  }

  lemma StepRemembers(c: Codec, s: Step, before: Files, after: Files, a: Agent, first: Option<Bytes>)
    requires Faithful(c) && StepOk(c, s, before, after) && !UninstallsAgent(s, a) && Remembers(c, before, a, first)
    ensures Remembers(c, after, a, first)
    ensures !InstallsAgent(s, a) ==>
              Content(after, File(PathOf(a), Manifest)) == Content(before, File(PathOf(a), Manifest))
  {
    match s {
      case InstallStep(agents, binary, rtk) =>
        if a in agents {
          InstallRemembers(c, before, after, agents, binary, rtk, a, first);
        } else {
          InstallOfOthers(c, before, after, agents, binary, rtk, a);
        }
      case UninstallStep(agents, binary) => UninstallOfOthers(c, before, after, agents, binary, a);
      case EditStep =>
      case FailedStep =>
    }
  }

  // ---- uninstalling ------------------------------------------------------------------------

  lemma UninstallRestores(c: Codec, before: Files, after: Files, agents: seq<Agent>, binary: string, a: Agent,
                          first: Option<Bytes>)
    requires Uninstalls(c, before, after, agents, binary) && a in agents && Remembers(c, before, a, first)
    requires InstalledIs(c, before, a, Content(before, File(PathOf(a), Settings)))
    ensures Content(after, File(PathOf(a), Settings)) == first
    ensures Content(after, File(PathOf(a), Manifest)) == None
    ensures Content(after, File(PathOf(a), Backup)) == Some(OrEmpty(first))
  {
    UninstallOf(c, before, after, agents, binary, a);
  }

  // Settings written by an install can be uninstalled exactly when they and the manifest
  // are within the sizes that are read back.
  lemma UninstallPrepares(c: Codec, files: Files, a: Agent, binary: string, first: Option<Bytes>, installed: Value)
    requires Remembers(c, files, a, first) && installed.Obj? && c.decode(c.encode(installed)) == Some(installed)
    requires Content(files, File(PathOf(a), Settings)) == Some(c.encode(installed))
    requires InstalledIs(c, files, a, Some(c.encode(installed)))
    ensures PrepareUninstall(c, files, a, binary).Ok? <==>
              |c.encode(installed)| <= MAX_SETTINGS && |Content(files, File(PathOf(a), Manifest)).value| <= MAX_MANIFEST
  {
  }

  // ---- whole lifecycles --------------------------------------------------------------------

  ghost predicate Lifetime(c: Codec, states: seq<Files>, steps: seq<Step>) {
    |states| == |steps| + 1 && forall i :: 0 <= i < |steps| ==> StepAt(c, states, steps, i)
  }

  ghost predicate StepAt(c: Codec, states: seq<Files>, steps: seq<Step>, i: int)
    requires |states| == |steps| + 1 && 0 <= i < |steps|
  {
    StepOk(c, steps[i], states[i], states[i + 1])
  }

  lemma {:induction false} RememberedThrough(c: Codec, states: seq<Files>, steps: seq<Step>, a: Agent, k: nat)
    requires Faithful(c) && Lifetime(c, states, steps) && 1 <= k <= |steps|
    requires InstallsAgent(steps[0], a) && Content(states[0], File(PathOf(a), Manifest)) == None
    requires forall i :: 0 <= i < k ==> !UninstallsAgent(steps[i], a)
    ensures Remembers(c, states[k], a, Content(states[0], File(PathOf(a), Settings)))
    decreases k
  {
    var first := Content(states[0], File(PathOf(a), Settings));
    assert StepAt(c, states, steps, k - 1);
    if k == 1 {
      InstallRemembers(c, states[0], states[1], steps[0].agents, steps[0].binary, steps[0].rtk, a, first);
    } else {
      RememberedThrough(c, states, steps, a, k - 1);
      StepRemembers(c, steps[k - 1], states[k - 1], states[k], a, first);
    }
  }

  // From settings without a manifest: an install first, and no uninstall before state k.
  ghost predicate Kept(c: Codec, states: seq<Files>, steps: seq<Step>, a: Agent, k: nat) {
    && Faithful(c) && Lifetime(c, states, steps) && 1 <= k <= |steps|
    && InstallsAgent(steps[0], a) && Content(states[0], File(PathOf(a), Manifest)) == None
    && forall i :: 0 <= i < k ==> !UninstallsAgent(steps[i], a)
  }

  lemma LastInstall(c: Codec, states: seq<Files>, steps: seq<Step>, a: Agent, last: nat)
    requires last < |steps| && Kept(c, states, steps, a, last + 1) && InstallsAgent(steps[last], a)
    ensures InstalledIs(c, states[last + 1], a, Content(states[last + 1], File(PathOf(a), Settings)))
  {
    var first := Content(states[0], File(PathOf(a), Settings));
    assert StepAt(c, states, steps, last);
    if last > 0 {
      RememberedThrough(c, states, steps, a, last);
    }
    var s := steps[last];
    InstallRemembers(c, states[last], states[last + 1], s.agents, s.binary, s.rtk, a, first);
  }

  lemma OtherStep(c: Codec, states: seq<Files>, steps: seq<Step>, a: Agent, k: nat)
    requires k < |steps| && Kept(c, states, steps, a, k) && !UninstallsAgent(steps[k], a) && !InstallsAgent(steps[k], a)
    ensures Content(states[k + 1], File(PathOf(a), Manifest)) == Content(states[k], File(PathOf(a), Manifest))
  {
    assert StepAt(c, states, steps, k);
    RememberedThrough(c, states, steps, a, k);
    StepRemembers(c, steps[k], states[k], states[k + 1], a, Content(states[0], File(PathOf(a), Settings)));
  }

  // From the last install on the manifest names what that install wrote.
  lemma {:induction false} InstalledThrough(c: Codec, states: seq<Files>, steps: seq<Step>, a: Agent, last: nat, k: nat)
    requires Kept(c, states, steps, a, k) && last < k
    requires InstallsAgent(steps[last], a) && forall i :: last < i < k ==> !InstallsAgent(steps[i], a)
    ensures InstalledIs(c, states[k], a, Content(states[last + 1], File(PathOf(a), Settings)))
    decreases k
  {
    if k == last + 1 {
      LastInstall(c, states, steps, a, last);
    } else {
      InstalledThrough(c, states, steps, a, last, k - 1);
      OtherStep(c, states, steps, a, k - 1);
    }
  }

  // From settings without a manifest: one install or more, with any binaries and RTK
  // paths, edits and failed commands between them, then an uninstall of settings as the
  // last install left them. The settings are byte for byte as they first were, or absent
  // if they were absent, and the manifest is gone.
  lemma UninstallRestoresFirst(c: Codec, states: seq<Files>, steps: seq<Step>, a: Agent, last: nat)
    requires Faithful(c) && Lifetime(c, states, steps) && last + 1 < |steps|
    requires Content(states[0], File(PathOf(a), Manifest)) == None
    requires InstallsAgent(steps[0], a) && InstallsAgent(steps[last], a) && UninstallsAgent(steps[|steps| - 1], a)
    requires forall i :: 0 <= i < |steps| - 1 ==> !UninstallsAgent(steps[i], a)
    requires forall i :: last < i < |steps| - 1 ==> !InstallsAgent(steps[i], a)
    requires Content(states[|steps| - 1], File(PathOf(a), Settings))
          == Content(states[last + 1], File(PathOf(a), Settings))
    ensures Content(states[|steps|], File(PathOf(a), Settings)) == Content(states[0], File(PathOf(a), Settings))
    ensures Content(states[|steps|], File(PathOf(a), Manifest)) == None
    ensures Content(states[|steps|], File(PathOf(a), Backup))
         == Some(OrEmpty(Content(states[0], File(PathOf(a), Settings))))
  {
    var n := |steps| - 1;
    RememberedThrough(c, states, steps, a, n);
    InstalledThrough(c, states, steps, a, last, n);
    assert StepAt(c, states, steps, n);
    UninstallRestores(c, states[n], states[n + 1], steps[n].agents, steps[n].binary, a,
                      Content(states[0], File(PathOf(a), Settings)));
  }

  // ---- installing again --------------------------------------------------------------------

  // The settings and the manifest are ones install can work on, backups aside.
  ghost predicate Installable(c: Codec, files: Files, a: Agent, binary: string, rtk: Option<string>) {
    var root := ReadSettings(c, Content(files, File(PathOf(a), Settings)));
    root.Ok? && Patched(a, root.value, binary, rtk).Ok?
  }

  // Without a manifest the backup of an earlier install must be of the present settings:
  // otherwise the install is refused.
  lemma ReinstallAccepted(c: Codec, files: Files, a: Agent, binary: string, rtk: Option<string>)
    requires Content(files, File(PathOf(a), Manifest)) == None
    ensures var current := Content(files, File(PathOf(a), Settings));
            var backup := Content(files, File(PathOf(a), Backup));
            PrepareInstall(c, files, a, binary, rtk).Ok? <==>
              Installable(c, files, a, binary, rtk) && (backup == None || backup == Some(OrEmpty(current)))
  {
  }

  // An uninstall of settings that are there, edited or not, takes the manifest away and
  // leaves the backup.
  lemma UninstallLeavesBackup(c: Codec, before: Files, after: Files, agents: seq<Agent>, binary: string, a: Agent,
                              first: Option<Bytes>)
    requires Uninstalls(c, before, after, agents, binary) && a in agents && Remembers(c, before, a, first)
    requires Content(before, File(PathOf(a), Settings)).Some?
    ensures Content(after, File(PathOf(a), Manifest)) == None
    ensures Content(after, File(PathOf(a), Backup)) == Some(OrEmpty(first))
  {
    UninstallOf(c, before, after, agents, binary, a);
  }

  // After installs, an uninstall and further edits, installing again is accepted exactly on
  // settings that are, byte for byte, those from before the first install.
  lemma ReinstallAfterUninstall(c: Codec, states: seq<Files>, steps: seq<Step>, a: Agent, edited: Files, binary: string,
                                rtk: Option<string>)
    requires |steps| > 1 && Kept(c, states, steps, a, |steps| - 1) && UninstallsAgent(steps[|steps| - 1], a)
    requires Content(states[|steps| - 1], File(PathOf(a), Settings)).Some?
    requires StepOk(c, EditStep, states[|steps|], edited)
    ensures PrepareInstall(c, edited, a, binary, rtk).Ok? <==>
              && Installable(c, edited, a, binary, rtk)
              && OrEmpty(Content(edited, File(PathOf(a), Settings)))
                 == OrEmpty(Content(states[0], File(PathOf(a), Settings)))
  {
    var n := |steps| - 1;
    RememberedThrough(c, states, steps, a, n);
    assert StepAt(c, states, steps, n);
    UninstallLeavesBackup(c, states[n], states[n + 1], steps[n].agents, steps[n].binary, a,
                          Content(states[0], File(PathOf(a), Settings)));
    ReinstallAccepted(c, edited, a, binary, rtk);
  }
}

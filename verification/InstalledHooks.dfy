// What install and uninstall leave in the settings files.
module InstalledHooks {
  import opened Wrappers
  import opened Json
  import opened Patch
  import opened PatchResults
  import opened Drives
  import opened Disks
  import opened Installing
  import opened Lifecycle

  // The settings of a host as a value; none is an empty object.
  ghost predicate Reads(c: Codec, files: Files, a: Agent, root: Value) {
    match Content(files, File(PathOf(a), Settings))
    case None => root == Obj([])
    case Some(bytes) => c.decode(bytes) == Some(root)
  }

  // An install writes, for each agent, the settings it read with exactly one managed hook:
  // behind the hooks that stay, and with every other field as it was.
  lemma InstallWritesHook(c: Codec, before: Files, after: Files, agents: seq<Agent>, binary: string,
                          rtk: Option<string>, a: Agent)
      returns (read: Value, v: Value)
    requires Installs(c, before, after, agents, binary, rtk) && a in agents
    ensures Reads(c, before, a, read) && Content(after, File(PathOf(a), Settings)) == Some(c.encode(v))
    ensures GainsHook(a, read, v, binary, rtk)
  {
    read, v := InstallPatches(c, before, after, agents, binary, rtk, a);
    PatchedGains(a, read, binary, rtk);
  }

  lemma InstallPatches(c: Codec, before: Files, after: Files, agents: seq<Agent>, binary: string,
                       rtk: Option<string>, a: Agent)
      returns (read: Value, v: Value)
    requires Installs(c, before, after, agents, binary, rtk) && a in agents
    ensures Reads(c, before, a, read) && Content(after, File(PathOf(a), Settings)) == Some(c.encode(v))
    ensures Patched(a, read, binary, rtk) == Ok(v)
  {
    InstallOf(c, before, after, agents, binary, rtk, a);
    var current := Content(before, File(PathOf(a), Settings));
    read := if current == None then Obj([]) else c.decode(current.value).value;
    v := Patched(a, read, binary, rtk).value;
  }

  // Its manifest names what was written and the binary.
  lemma InstallWritesManifest(c: Codec, before: Files, after: Files, agents: seq<Agent>, binary: string,
                              rtk: Option<string>, a: Agent) returns (m: ManifestData)
    requires Faithful(c) && Installs(c, before, after, agents, binary, rtk) && a in agents
    ensures ManifestOf(c, after, a) == Some(m) && m.version == 1 && m.binary == binary
    ensures Content(after, File(PathOf(a), Settings)) == Some(m.installedHash.of)
    ensures Content(before, File(PathOf(a), Manifest)) == None ==>
              && (m.originalExisted <==> Content(before, File(PathOf(a), Settings)).Some?)
              && m.originalHash == Sha256(OrEmpty(Content(before, File(PathOf(a), Settings))))
  {
    InstallOf(c, before, after, agents, binary, rtk, a);
    var p := PrepareInstall(c, before, a, binary, rtk).value;
    var previous := ReadManifest(c, p.originalManifest).value;
    m := NewManifest(before, p.path, p.original, previous, p.updated.value, binary).value;
    assert c.decodeManifest(c.encodeManifest(m)) == Some(m);
  }

  lemma BackupAt(before: Files, after: Files, prepared: seq<Prepared>, i: nat, sum: Bytes -> Bytes)
    requires Distinct(prepared) && i < |prepared|
    requires SameContent(after, AllApplied(before, prepared, true, sum))
    ensures var p := prepared[i];
            var backup, check := File(p.path, Backup), File(p.path, BackupSum);
            if Content(before, backup) == None
            then Content(after, backup) == Some(OrEmpty(p.original))
                 && Content(after, check) == Some(sum(OrEmpty(p.original)))
            else Content(after, backup) == Content(before, backup) && Content(after, check) == Content(before, check)
  {
    AppliedAt(before, prepared, i, true, sum, Backup);
    AppliedAt(before, prepared, i, true, sum, BackupSum);
  }

  lemma PreparedReads(c: Codec, files: Files, a: Agent, binary: string, rtk: Option<string>, p: Prepared)
    requires PrepareInstall(c, files, a, binary, rtk) == Ok(p)
    ensures p.path == PathOf(a) && p.original == Content(files, File(PathOf(a), Settings))
  {
  }

  // The first install keeps a copy of what it read, with its checksum; a later one leaves
  // both alone.
  lemma InstallWritesBackup(c: Codec, before: Files, after: Files, agents: seq<Agent>, binary: string,
                            rtk: Option<string>, a: Agent)
    requires Installs(c, before, after, agents, binary, rtk) && a in agents
    ensures var read := OrEmpty(Content(before, File(PathOf(a), Settings)));
            if Content(before, File(PathOf(a), Backup)) == None
            then Content(after, File(PathOf(a), Backup)) == Some(read)
                 && Content(after, File(PathOf(a), BackupSum)) == Some(c.sum(read))
            else Content(after, File(PathOf(a), Backup)) == Content(before, File(PathOf(a), Backup))
                 && Content(after, File(PathOf(a), BackupSum)) == Content(before, File(PathOf(a), BackupSum))
  {
    var prepared := PrepareInstalls(c, before, agents, binary, rtk).value;
    PreparedInstalls(c, before, agents, binary, rtk);
    assert Distinct(prepared);
    var i :| 0 <= i < |agents| && agents[i] == a;
    BackupAt(before, after, prepared, i, c.sum);
    PreparedReads(c, before, a, binary, rtk, prepared[i]);
  }

  // The error of an install is that of the first host that is refused.
  lemma {:induction false} FirstErrorReported(prepare: Agent -> Result<Prepared, InstallError>, agents: seq<Agent>,
                                              k: nat)
    requires k < |agents| && prepare(agents[k]).Err? && forall j :: 0 <= j < k ==> prepare(agents[j]).Ok?
    ensures Gathered(prepare, agents) == Err(prepare(agents[k]).error)
    decreases |agents|
  {
    var n := |agents| - 1;
    if k < n {
      assert forall j :: 0 <= j <= k ==> agents[..n][j] == agents[j];
      FirstErrorReported(prepare, agents[..n], k);
    } else {
      AllAccepted(prepare, agents[..n]);
    }
  }

  lemma {:induction false} AllAccepted(prepare: Agent -> Result<Prepared, InstallError>, agents: seq<Agent>)
    requires forall j :: 0 <= j < |agents| ==> prepare(agents[j]).Ok?
    ensures Gathered(prepare, agents).Ok?
  {
    if agents != [] {
      var n := |agents| - 1;
      assert forall j :: 0 <= j < n ==> agents[..n][j] == agents[j];
      AllAccepted(prepare, agents[..n]);
    }
  }

  // The binary whose hook an uninstall takes out.
  function InstalledBinary(c: Codec, files: Files, a: Agent, binary: string): string {
    match ManifestOf(c, files, a) case Some(m) => m.binary case None => binary
  }

  // The settings are not, or not any more, what an install wrote.
  ghost predicate Edited(c: Codec, files: Files, a: Agent) {
    && Content(files, File(PathOf(a), Settings)).Some?
    && (ManifestOf(c, files, a).Some? ==>
          ManifestOf(c, files, a).value.installedHash != Sha256(Content(files, File(PathOf(a), Settings)).value))
  }

  // An uninstall of edited settings takes the managed hook out and keeps everything else;
  // the manifest goes and the backup stays.
  lemma UninstallRemovesHook(c: Codec, before: Files, after: Files, agents: seq<Agent>, binary: string, a: Agent)
      returns (read: Value, v: Value)
    requires Uninstalls(c, before, after, agents, binary) && a in agents && Edited(c, before, a)
    ensures Reads(c, before, a, read) && read.Obj?
    ensures Content(after, File(PathOf(a), Settings)) == Some(c.encode(v)) && v.Obj?
    ensures var installed := InstalledBinary(c, before, a, binary);
            && ManagedCount(a, v, installed) == 0
            && Hooks(a, EntriesOr(a, v)) == Staying(a, Hooks(a, EntriesOr(a, read)), installed, false)
            && (forall h :: h in Hooks(a, EntriesOr(a, v)) <==>
                              h in Hooks(a, EntriesOr(a, read)) && !IsManaged(a, h, installed))
    ensures SameFields(read, v) && SameEvents(a, read, v)
    ensures Content(after, File(PathOf(a), Manifest)) == None
    ensures Content(after, File(PathOf(a), Backup)) == Content(before, File(PathOf(a), Backup))
  {
    UninstallOf(c, before, after, agents, binary, a);
    read := c.decode(Content(before, File(PathOf(a), Settings)).value).value;
    var installed := InstalledBinary(c, before, a, binary);
    v := Unpatched(a, read, installed);
    UnpatchedHooks(a, read, installed);
  }

  // ---- what is accepted ------------------------------------------------------------------------

  // Settings that are absent, or an object within a megabyte.
  ghost predicate SettingsReadable(c: Codec, files: Files, a: Agent) {
    match Content(files, File(PathOf(a), Settings))
    case None => true
    case Some(bytes) => |bytes| <= 1048576 && c.decode(bytes).Some? && c.decode(bytes).value.Obj?
  }

  // A manifest that is absent, or of version 1 and within 64 KiB.
  ghost predicate ManifestReadable(c: Codec, files: Files, a: Agent) {
    match Content(files, File(PathOf(a), Manifest))
    case None => true
    case Some(bytes) => |bytes| <= 65536 && c.decodeManifest(bytes).Some? && c.decodeManifest(bytes).value.version == 1
  }

  ghost predicate BackupIs(files: Files, a: Agent, hash: Digest) {
    exists bytes: Bytes :: Content(files, File(PathOf(a), Backup)) == Some(bytes) && Sha256(bytes) == hash
  }

  // The backup fits: to the manifest if there is one, else to the present settings.
  ghost predicate BackupFits(c: Codec, files: Files, a: Agent) {
    match ManifestOf(c, files, a)
    case Some(m) => BackupIs(files, a, m.originalHash)
    case None =>
      Content(files, File(PathOf(a), Backup)) in {None, Some(OrEmpty(Content(files, File(PathOf(a), Settings))))}
  }

  lemma VerifiedExactly(files: Files, a: Agent, m: ManifestData)
    ensures VerifyBackup(files, PathOf(a), m).Ok? <==> BackupIs(files, a, m.originalHash)
  {
  }

  lemma ManifestAccepted(c: Codec, files: Files, a: Agent, updated: Bytes, binary: string)
    ensures var previous := ReadManifest(c, Content(files, File(PathOf(a), Manifest)));
            var current := Content(files, File(PathOf(a), Settings));
            previous.Ok? && NewManifest(files, PathOf(a), current, previous.value, updated, binary).Ok? <==>
              ManifestReadable(c, files, a) && BackupFits(c, files, a)
  {
    if ManifestOf(c, files, a).Some? {
      VerifiedExactly(files, a, ManifestOf(c, files, a).value);
    }
  }

  // An install of one host is accepted exactly on settings that can be read and patched,
  // with a readable manifest and a backup that fits.
  lemma InstallAcceptedExactly(c: Codec, files: Files, a: Agent, binary: string, rtk: Option<string>)
    ensures PrepareInstall(c, files, a, binary, rtk).Ok? <==>
              && SettingsReadable(c, files, a) && Installable(c, files, a, binary, rtk)
              && ManifestReadable(c, files, a) && BackupFits(c, files, a)
  {
    var read := ReadSettings(c, Content(files, File(PathOf(a), Settings)));
    assert read.Ok? <==> SettingsReadable(c, files, a);
    if read.Ok? && Patched(a, read.value, binary, rtk).Ok? {
      ManifestAccepted(c, files, a, c.encode(Patched(a, read.value, binary, rtk).value), binary);
    }
  }

  // An uninstall of one host is accepted exactly when there is nothing to do, or settings
  // and manifest can be read, the manifest names an absolute path, and settings as installed
  // have their backup.
  lemma UninstallAcceptedExactly(c: Codec, files: Files, a: Agent, binary: string)
    ensures PrepareUninstall(c, files, a, binary).Ok? <==>
              || Content(files, File(PathOf(a), Settings)) == None
              || (&& SettingsReadable(c, files, a) && ManifestReadable(c, files, a)
                  && match ManifestOf(c, files, a)
                     case None => true
                     case Some(m) => m.binary != "" && m.binary[0] == '/'
                                     && (Edited(c, files, a) || BackupIs(files, a, m.originalHash)))
  {
    if ManifestOf(c, files, a).Some? {
      VerifiedExactly(files, a, ManifestOf(c, files, a).value);
    }
  }
}

// Installing and uninstalling hooks: the settings files over a whole lifecycle.
module Installing {
  import opened Wrappers
  import opened Json
  import opened Patch
  import opened Drives
  import opened Disks

  // SHA-256, taken to be injective: a digest stands for the bytes it was made of.
  datatype Digest = Sha256(of: Bytes)

  datatype ManifestData = ManifestData(version: nat, originalExisted: bool, originalHash: Digest,
                                       installedHash: Digest, binary: string)

  // The JSON text codecs, the printed digest, and which paths are executable files.
  datatype Codec = Codec(encode: Value -> Bytes, decode: Bytes -> Option<Value>,
                         encodeManifest: ManifestData -> Bytes, decodeManifest: Bytes -> Option<ManifestData>,
                         sum: Bytes -> Bytes, executable: string -> bool)

  // A manifest reads back as it was written.
  ghost predicate Faithful(c: Codec) {
    forall m :: c.decodeManifest(c.encodeManifest(m)) == Some(m)
  }

  datatype InstallError = InvalidPath | TooLarge | BadJson | NotObject | PatchFailed(e: PatchError) | BadManifest
    | BackupMismatch | Transaction(failure: CommitError)

  const MAX_SETTINGS := 1024 * 1024
  const MAX_MANIFEST := 64 * 1024

  function PathOf(agent: Agent): nat {
    match agent case Claude => 0 case Cursor => 1
  }

  predicate IsAbsolute(path: string) {
    path != "" && path[0] == '/'
  }

  // validate_executable_path
  predicate IsUsable(c: Codec, path: string) {
    IsAbsolute(path) && '\0' !in path && '\n' !in path && c.executable(path)
  }

  // ---- reading ---------------------------------------------------------------------------

  // read_json_or_empty
  function ReadSettings(c: Codec, current: Option<Bytes>): Result<Value, InstallError> {
    match current
    case None => Ok(Obj([]))
    case Some(bytes) =>
      if |bytes| > MAX_SETTINGS then Err(TooLarge)
      else
        match c.decode(bytes)
        case None => Err(BadJson)
        case Some(root) => if root.Obj? then Ok(root) else Err(NotObject)
  }

  function ReadManifest(c: Codec, bytes: Option<Bytes>): Result<Option<ManifestData>, InstallError> {
    match bytes
    case None => Ok(None)
    case Some(b) =>
      if |b| > MAX_MANIFEST then Err(TooLarge)
      else
        match c.decodeManifest(b)
        case None => Err(BadManifest)
        case Some(m) => if m.version == 1 then Ok(Some(m)) else Err(BadManifest)
  }

  function VerifyBackup(files: Files, path: nat, m: ManifestData): Result<Bytes, InstallError> {
    match Content(files, File(path, Backup))
    case None => Err(BackupMismatch)
    case Some(backup) => if Sha256(backup) == m.originalHash then Ok(backup) else Err(BackupMismatch)
  }

  // ---- install ---------------------------------------------------------------------------

  // install_manifest: what was there first is taken from the previous manifest if any.
  function NewManifest(files: Files, path: nat, current: Option<Bytes>, previous: Option<ManifestData>,
                       updated: Bytes, binary: string): Result<ManifestData, InstallError> {
    match previous
    case Some(m) =>
      (match VerifyBackup(files, path, m)
       case Err(e) => Err(e)
       case Ok(_) => Ok(ManifestData(1, m.originalExisted, m.originalHash, Sha256(updated), binary)))
    case None =>
      var backup := Content(files, File(path, Backup));
      if backup.Some? && Sha256(backup.value) != Sha256(OrEmpty(current)) then Err(BackupMismatch)
      else Ok(ManifestData(1, current.Some?, Sha256(OrEmpty(current)), Sha256(updated), binary))
  }

  function PrepareInstall(c: Codec, files: Files, agent: Agent, binary: string, rtk: Option<string>):
      (r: Result<Prepared, InstallError>)
    ensures r.Ok? ==> r.value.path == PathOf(agent)
    ensures r.Err? ==> !r.error.Transaction? && !r.error.InvalidPath?
  {
    var path := PathOf(agent);
    var current := Content(files, File(path, Settings));
    var manifestBytes := Content(files, File(path, Manifest));
    match ReadSettings(c, current)
    case Err(e) => Err(e)
    case Ok(root) =>
      match Patched(agent, root, binary, rtk)
      case Err(e) => Err(PatchFailed(e))
      case Ok(patched) =>
        match ReadManifest(c, manifestBytes)
        case Err(e) => Err(e)
        case Ok(previous) =>
          var updated := c.encode(patched);
          match NewManifest(files, path, current, previous, updated, binary)
          case Err(e) => Err(e)
          case Ok(m) => Ok(Prepared(path, current, Some(updated), manifestBytes, Some(c.encodeManifest(m))))
  }

  // ---- uninstall -------------------------------------------------------------------------

  datatype Action = Surgical | Restore(bytes: Bytes) | Remove

  // uninstall_action
  function ActionFor(files: Files, path: nat, current: Option<Bytes>, manifest: Option<ManifestData>):
      Result<Action, InstallError>
  {
    match manifest
    case None => Ok(Surgical)
    case Some(m) =>
      if Sha256(OrEmpty(current)) != m.installedHash then Ok(Surgical)
      else
        match VerifyBackup(files, path, m)
        case Err(e) => Err(e)
        case Ok(backup) => Ok(if m.originalExisted then Restore(backup) else Remove)
  }

  function Updated(c: Codec, action: Action, surgical: Value): Option<Bytes> {
    match action
    case Surgical => Some(c.encode(surgical))
    case Restore(bytes) => Some(bytes)
    case Remove => None
  }

  // None when there are no settings to touch.
  function PrepareUninstall(c: Codec, files: Files, agent: Agent, binary: string):
      (r: Result<Option<Prepared>, InstallError>)
    ensures r.Err? ==> !r.error.Transaction?
  {
    var path := PathOf(agent);
    var current := Content(files, File(path, Settings));
    var manifestBytes := Content(files, File(path, Manifest));
    if current == None then Ok(None)
    else
      match ReadSettings(c, current)
      case Err(e) => Err(e)
      case Ok(root) =>
        match ReadManifest(c, manifestBytes)
        case Err(e) => Err(e)
        case Ok(manifest) =>
          if manifest.Some? && !IsAbsolute(manifest.value.binary) then Err(BadManifest)
          else
            var installed := match manifest case Some(m) => m.binary case None => binary;
            match ActionFor(files, path, current, manifest)
            case Err(e) => Err(e)
            case Ok(action) =>
              Ok(Some(Prepared(path, current, Updated(c, action, Unpatched(agent, root, installed)), manifestBytes,
                               None)))
  }

  // ---- whole commands --------------------------------------------------------------------

  // One result for each agent in turn, up to the first error.
  function Gathered(prepare: Agent -> Result<Prepared, InstallError>, agents: seq<Agent>):
      Result<seq<Prepared>, InstallError>
  {
    if agents == [] then Ok([])
    else
      match Gathered(prepare, agents[..|agents| - 1])
      case Err(e) => Err(e)
      case Ok(before) =>
        match prepare(agents[|agents| - 1])
        case Err(e) => Err(e)
        case Ok(p) => Ok(before + [p])
  }

  function Preparer(c: Codec, files: Files, binary: string, rtk: Option<string>):
      Agent -> Result<Prepared, InstallError>
  {
    agent => PrepareInstall(c, files, agent, binary, rtk)
  }

  function PrepareInstalls(c: Codec, files: Files, agents: seq<Agent>, binary: string, rtk: Option<string>):
      Result<seq<Prepared>, InstallError> {
    Gathered(Preparer(c, files, binary, rtk), agents)
  }

  function PrepareUninstalls(c: Codec, files: Files, agents: seq<Agent>, binary: string):
      Result<seq<Prepared>, InstallError>
  {
    if agents == [] then Ok([])
    else
      match PrepareUninstalls(c, files, agents[..|agents| - 1], binary)
      case Err(e) => Err(e)
      case Ok(before) =>
        match PrepareUninstall(c, files, agents[|agents| - 1], binary)
        case Err(e) => Err(e)
        case Ok(None) => Ok(before)
        case Ok(Some(p)) => Ok(before + [p])
  }

  // parse_agents gives each agent at most once.
  ghost predicate NoDuplicates(agents: seq<Agent>) {
    forall i, j :: 0 <= i < j < |agents| ==> agents[i] != agents[j]
  }

  ghost predicate OfAgents(files: Files, agents: seq<Agent>, prepared: seq<Prepared>) {
    && Distinct(prepared) && AllAsRead(files, prepared)
    && forall p :: p in prepared ==> exists a :: a in agents && p.path == PathOf(a)
  }

  lemma OfAgentsExtended(files: Files, agents: seq<Agent>, n: nat, before: seq<Prepared>, p: Prepared)
    requires NoDuplicates(agents) && n < |agents| && OfAgents(files, agents[..n], before)
    requires p.path == PathOf(agents[n]) && AsRead(files, p)
    ensures OfAgents(files, agents[..n + 1], before + [p])
  {
    forall q | q in before + [p] ensures exists a :: a in agents[..n + 1] && q.path == PathOf(a) {
      if q in before {
        var a :| a in agents[..n] && q.path == PathOf(a);
        assert a in agents[..n + 1];
      } else {
        assert agents[..n + 1][n] == agents[n];
      }
    }
    forall i | 0 <= i < |before| ensures before[i].path != p.path {
      assert before[i] in before;
      var a :| a in agents[..n] && before[i].path == PathOf(a);
      assert a != agents[n];
    }
  }

  lemma OfAgentsWider(files: Files, agents: seq<Agent>, n: nat, before: seq<Prepared>)
    requires n < |agents| && OfAgents(files, agents[..n], before)
    ensures OfAgents(files, agents[..n + 1], before)
  {
    forall q | q in before ensures exists a :: a in agents[..n + 1] && q.path == PathOf(a) {
      var a :| a in agents[..n] && q.path == PathOf(a);
      assert a in agents[..n + 1];
    }
  }

  // What was prepared decides the error, or the paths, unless the commit fails.
  predicate Decided(prepared: Result<seq<Prepared>, InstallError>, r: Result<seq<nat>, InstallError>) {
    match prepared
    case Err(e) => r == Err(e)
    case Ok(ps) => r == Ok(PathsOf(ps)) || (r.Err? && r.error.Transaction?)
  }

  // An error for the first agents is the error for all.
  lemma {:induction false} GatheredFails(prepare: Agent -> Result<Prepared, InstallError>, agents: seq<Agent>, n: nat)
    requires n <= |agents| && Gathered(prepare, agents[..n]).Err?
    ensures Gathered(prepare, agents) == Gathered(prepare, agents[..n])
    decreases |agents|
  {
    if n < |agents| {
      assert agents[..|agents| - 1][..n] == agents[..n];
      GatheredFails(prepare, agents[..|agents| - 1], n);
    } else {
      assert agents[..n] == agents;
    }
  }

  lemma {:induction false} UninstallsFail(c: Codec, files: Files, agents: seq<Agent>, binary: string, n: nat)
    requires n <= |agents| && PrepareUninstalls(c, files, agents[..n], binary).Err?
    ensures PrepareUninstalls(c, files, agents, binary) == PrepareUninstalls(c, files, agents[..n], binary)
    decreases |agents|
  {
    if n < |agents| {
      assert agents[..|agents| - 1][..n] == agents[..n];
      UninstallsFail(c, files, agents[..|agents| - 1], binary, n);
    } else {
      assert agents[..n] == agents;
    }
  }

  // The first loop of install: nothing is written before every agent is prepared.
  method PrepareAllInstalls(c: Codec, files: Files, agents: seq<Agent>, binary: string, rtk: Option<string>)
      returns (r: Result<seq<Prepared>, InstallError>)
    requires NoDuplicates(agents)
    ensures r == PrepareInstalls(c, files, agents, binary, rtk)
    ensures if r.Ok? then OfAgents(files, agents, r.value) else !r.error.Transaction? && !r.error.InvalidPath?
  {
    var prepared: seq<Prepared> := [];
    for i := 0 to |agents|
      invariant PrepareInstalls(c, files, agents[..i], binary, rtk) == Ok(prepared)
      invariant OfAgents(files, agents[..i], prepared)
    {
      assert agents[..i + 1][..i] == agents[..i];
      var next := PrepareInstall(c, files, agents[i], binary, rtk);
      if next.Err? {
        GatheredFails(Preparer(c, files, binary, rtk), agents, i + 1);
        return Err(next.error);
      }
      OfAgentsExtended(files, agents, i, prepared, next.value);
      prepared := prepared + [next.value];
    }
    assert agents[..|agents|] == agents;
    return Ok(prepared);
  }

  method PrepareAllUninstalls(c: Codec, files: Files, agents: seq<Agent>, binary: string)
      returns (r: Result<seq<Prepared>, InstallError>)
    requires NoDuplicates(agents)
    ensures r == PrepareUninstalls(c, files, agents, binary)
    ensures if r.Ok? then OfAgents(files, agents, r.value) else !r.error.Transaction?
  {
    var prepared: seq<Prepared> := [];
    for i := 0 to |agents|
      invariant PrepareUninstalls(c, files, agents[..i], binary) == Ok(prepared)
      invariant OfAgents(files, agents[..i], prepared)
    {
      assert agents[..i + 1][..i] == agents[..i];
      var next := PrepareUninstall(c, files, agents[i], binary);
      if next.Err? {
        UninstallsFail(c, files, agents, binary, i + 1);
        return Err(next.error);
      }
      match next.value {
        case None => OfAgentsWider(files, agents, i, prepared);
        case Some(p) =>
          OfAgentsExtended(files, agents, i, prepared, p);
          prepared := prepared + [p];
      }
    }
    assert agents[..|agents|] == agents;
    return Ok(prepared);
  }

  method Install(c: Codec, disk: Disk, agents: seq<Agent>, binary: string, rtk: Option<string>)
      returns (r: Result<seq<nat>, InstallError>)
    requires NoDuplicates(agents) && disk.sum == c.sum
    modifies disk
    ensures r.Ok? ==> Installs(c, old(disk.files), disk.files, agents, binary, rtk)
    ensures r == Err(InvalidPath) <==>
              exists path: string :: (path == binary || rtk == Some(path))
                && (path == "" || path[0] != '/' || '\0' in path || '\n' in path || !c.executable(path))
    ensures if !IsUsable(c, binary) || (rtk.Some? && !IsUsable(c, rtk.value)) then r == Err(InvalidPath)
            else Decided(PrepareInstalls(c, old(disk.files), agents, binary, rtk), r)
    ensures old(disk.temps) == {} && (r.Ok? || r.error.Transaction?) ==>
              (r.Ok? <==> disk.Clean(old(disk.writes), disk.writes))
    ensures r.Err? && r.error != Transaction(RollbackFailed) ==> NothingInstalled(old(disk.files), disk.files)
    ensures r.Err? && !r.error.Transaction? ==> disk.files == old(disk.files)
  {
    if !IsUsable(c, binary) || (rtk.Some? && !IsUsable(c, rtk.value)) {
      return Err(InvalidPath);
    }
    var prepared := PrepareAllInstalls(c, disk.files, agents, binary, rtk);
    if prepared.Err? {
      return Err(prepared.error);
    }
    var committed := disk.Commit(prepared.value, true);
    match committed {
      case Ok(paths) => return Ok(paths);
      case Err(e) =>
        if e == UpdateFailed {
          FailedCommit(old(disk.files), disk.files, prepared.value);
        }
        return Err(Transaction(e));
    }
  }

  method Uninstall(c: Codec, disk: Disk, agents: seq<Agent>, binary: string) returns (r: Result<seq<nat>, InstallError>)
    requires NoDuplicates(agents) && disk.sum == c.sum
    modifies disk
    ensures r.Ok? ==> Uninstalls(c, old(disk.files), disk.files, agents, binary)
    ensures Decided(PrepareUninstalls(c, old(disk.files), agents, binary), r)
    ensures old(disk.temps) == {} && (r.Ok? || r.error.Transaction?) ==>
              (r.Ok? <==> disk.Clean(old(disk.writes), disk.writes))
    ensures r.Err? && r.error != Transaction(RollbackFailed) ==> NothingInstalled(old(disk.files), disk.files)
    ensures r.Err? && !r.error.Transaction? ==> disk.files == old(disk.files)
  {
    var prepared := PrepareAllUninstalls(c, disk.files, agents, binary);
    if prepared.Err? {
      return Err(prepared.error);
    }
    var committed := disk.Commit(prepared.value, false);
    match committed {
      case Ok(paths) => return Ok(paths);
      case Err(e) =>
        if e == UpdateFailed {
          FailedCommit(old(disk.files), disk.files, prepared.value);
        }
        return Err(Transaction(e));
    }
  }

  // ---- steps of a lifecycle ----------------------------------------------------------------

  ghost predicate Installs(c: Codec, before: Files, after: Files, agents: seq<Agent>, binary: string,
                           rtk: Option<string>)
  {
    && NoDuplicates(agents) && IsUsable(c, binary)
    && var prepared := PrepareInstalls(c, before, agents, binary, rtk);
       prepared.Ok? && SameContent(after, AllApplied(before, prepared.value, true, c.sum))
  }

  ghost predicate Uninstalls(c: Codec, before: Files, after: Files, agents: seq<Agent>, binary: string) {
    && NoDuplicates(agents)
    && var prepared := PrepareUninstalls(c, before, agents, binary);
       prepared.Ok? && SameContent(after, AllApplied(before, prepared.value, false, c.sum))
  }

  // A command that failed and was rolled back: settings and manifests are as before, and
  // at most a backup of the current settings is new.
  ghost predicate NothingInstalled(before: Files, after: Files) {
    forall owner: nat ::
      && Content(after, File(owner, Settings)) == Content(before, File(owner, Settings))
      && Content(after, File(owner, Manifest)) == Content(before, File(owner, Manifest))
      && (Content(after, File(owner, Backup)) == Content(before, File(owner, Backup))
          || (Content(before, File(owner, Backup)) == None
              && Content(after, File(owner, Backup)) == Some(OrEmpty(Content(before, File(owner, Settings))))))
  }

  lemma FailedCommit(before: Files, after: Files, prepared: seq<Prepared>)
    requires AllAsRead(before, prepared) && AllAsRead(after, prepared) && Safe(before, after, prepared)
    ensures NothingInstalled(before, after)
  {
    forall owner: nat
      ensures && Content(after, File(owner, Settings)) == Content(before, File(owner, Settings))
              && Content(after, File(owner, Manifest)) == Content(before, File(owner, Manifest))
              && (Content(after, File(owner, Backup)) == Content(before, File(owner, Backup))
                  || (Content(before, File(owner, Backup)) == None
                      && Content(after, File(owner, Backup)) == Some(OrEmpty(Content(before, File(owner, Settings))))))
    {
      if owner in PathsOf(prepared) {
        var i :| 0 <= i < |prepared| && prepared[i].path == owner;
        assert AsRead(before, prepared[i]) && AsRead(after, prepared[i]) && BackupSafe(before, after, prepared[i]);
      }
    }
  }
}

// What patching and unpatching do to settings as a whole.
module PatchResults {
  import opened Wrappers
  import opened Words
  import opened Paths
  import opened Json
  import opened Patch

  // The entries a patch works on: none when a container is missing.
  function EntriesOr(agent: Agent, root: Value): seq<Value> {
    match Entries(agent, root) case Some(groups) => groups case None => []
  }

  // The parts a successful patch is made of.
  ghost predicate PatchParts(agent: Agent, root: Value, fields: Fields, hooks: Fields) {
    && root.Obj?
    && Versioned(agent, root.fields) == Ok(fields)
    && ObjectAt(fields, "hooks") == Ok(hooks)
    && ArrayAt(hooks, EventKey(agent)) == Ok(EntriesOr(agent, root))
  }

  function NewEntries(agent: Agent, root: Value, binary: string, rtk: Option<string>): seq<Value> {
    Retained(agent, EntriesOr(agent, root), binary, rtk.Some?) + [ManagedEntry(agent, binary, rtk)]
  }

  lemma VersionedHooks(agent: Agent, fields: Fields)
    ensures Versioned(agent, fields).Ok? ==>
              var versioned := Versioned(agent, fields).value;
              && Get(versioned, "hooks") == Get(fields, "hooks")
              && Versioned(agent, versioned) == Ok(versioned)
              && (versioned == fields <==> agent == Claude || Get(fields, "version").Some?)
              && (agent == Cursor ==> AsU64(Get(versioned, "version")) == Some(1))
  {
    GetPut(fields, "version", Int(1), "hooks");
    GetPut(fields, "version", Int(1), "version");
  }

  lemma PatchedParts(agent: Agent, root: Value, binary: string, rtk: Option<string>)
      returns (fields: Fields, hooks: Fields)
    requires Patched(agent, root, binary, rtk).Ok?
    ensures PatchParts(agent, root, fields, hooks)
    ensures Patched(agent, root, binary, rtk).value
         == WithEntries(fields, hooks, EventKey(agent), NewEntries(agent, root, binary, rtk))
  {
    fields := Versioned(agent, root.fields).value;
    hooks := ObjectAt(fields, "hooks").value;
    VersionedHooks(agent, root.fields);
  }

  lemma PartsSuffice(agent: Agent, root: Value, binary: string, rtk: Option<string>, fields: Fields, hooks: Fields)
    requires PatchParts(agent, root, fields, hooks)
    ensures Patched(agent, root, binary, rtk)
         == Ok(WithEntries(fields, hooks, EventKey(agent), NewEntries(agent, root, binary, rtk)))
  {
  }

  // Reading back what was written.
  lemma WrittenEntries(agent: Agent, fields: Fields, hooks: Fields, entries: seq<Value>)
    ensures var v := WithEntries(fields, hooks, EventKey(agent), entries);
            && Entries(agent, v) == Some(entries)
            && Get(v.fields, "hooks") == Some(Obj(Put(hooks, EventKey(agent), Arr(entries))))
            && Get(v.fields, "version") == Get(fields, "version")
  {
    var key := EventKey(agent);
    GetPut(hooks, key, Arr(entries), key);
    GetPut(fields, "hooks", Obj(Put(hooks, key, Arr(entries))), "hooks");
    GetPut(fields, "hooks", Obj(Put(hooks, key, Arr(entries))), "version");
  }

  lemma WrittenTwice(fields: Fields, hooks: Fields, key: string, a: seq<Value>, b: seq<Value>)
    ensures WithEntries(WithEntries(fields, hooks, key, a).fields, Put(hooks, key, Arr(a)), key, b)
         == WithEntries(fields, hooks, key, b)
  {
    PutPut(hooks, key, Arr(a), Arr(b));
    PutPut(fields, "hooks", Obj(Put(hooks, key, Arr(a))), Obj(Put(hooks, key, Arr(b))));
  }

  // ---- patching twice --------------------------------------------------------------------

  lemma WrittenParts(agent: Agent, root: Value, fields: Fields, hooks: Fields, entries: seq<Value>)
    requires PatchParts(agent, root, fields, hooks)
    ensures var v := WithEntries(fields, hooks, EventKey(agent), entries);
            PatchParts(agent, v, v.fields, Put(hooks, EventKey(agent), Arr(entries))) && EntriesOr(agent, v) == entries
  {
    var key := EventKey(agent);
    WrittenEntries(agent, fields, hooks, entries);
    GetPut(hooks, key, Arr(entries), key);
    VersionedHooks(agent, root.fields);
  }

  lemma EntriesAfter(agent: Agent, groups: seq<Value>, binary: string, rtk: Option<string>, compose: bool)
    requires rtk.Some? ==> compose
    ensures Retained(agent, Retained(agent, groups, binary, rtk.Some?) + [ManagedEntry(agent, binary, rtk)], binary,
                     compose)
         == Retained(agent, groups, binary, compose)
  {
    var kept := Retained(agent, groups, binary, rtk.Some?);
    RetainedAppend(agent, kept, [ManagedEntry(agent, binary, rtk)], binary, compose);
    RetainedTwice(agent, groups, binary, rtk.Some?, compose);
    ManagedEntryGoes(agent, binary, rtk, compose);
    assert Retained(agent, kept, binary, compose) + [] == Retained(agent, kept, binary, compose);
  }

  // A later patch replaces an earlier one: the result is as if only the later one had
  // been made. Patching twice the same way is patching once.
  lemma PatchAgain(agent: Agent, root: Value, binary: string, rtk: Option<string>, rtk2: Option<string>)
    requires Patched(agent, root, binary, rtk).Ok? && (rtk.Some? ==> rtk2.Some?)
    ensures Patched(agent, Patched(agent, root, binary, rtk).value, binary, rtk2) == Patched(agent, root, binary, rtk2)
  {
    var fields, hooks := PatchedParts(agent, root, binary, rtk);
    var key, entries := EventKey(agent), NewEntries(agent, root, binary, rtk);
    var v := WithEntries(fields, hooks, key, entries);
    WrittenParts(agent, root, fields, hooks, entries);
    PartsSuffice(agent, v, binary, rtk2, v.fields, Put(hooks, key, Arr(entries)));
    PartsSuffice(agent, root, binary, rtk2, fields, hooks);
    EntriesAfter(agent, EntriesOr(agent, root), binary, rtk, rtk2.Some?);
    WrittenTwice(fields, hooks, key, entries, NewEntries(agent, root, binary, rtk2));
  }

  lemma PatchIdempotent(agent: Agent, root: Value, binary: string, rtk: Option<string>)
    ensures var once := Patched(agent, root, binary, rtk);
            once.Ok? ==> Patched(agent, once.value, binary, rtk) == once
  {
    if Patched(agent, root, binary, rtk).Ok? {
      PatchAgain(agent, root, binary, rtk, rtk);
    }
  }

  // ---- which hooks there are ---------------------------------------------------------------

  lemma {:induction false} FlattenedAppend(a: seq<Value>, b: seq<Value>)
    ensures Flattened(a + b) == Flattened(a) + Flattened(b)
  {
    if a == [] {
      assert a + b == b;
    } else {
      assert (a + b)[1..] == a[1..] + b;
      FlattenedAppend(a[1..], b);
    }
  }

  // After a patch the hooks are the old ones that stay, in order, and then the managed
  // one; outside the hook list only a missing Cursor version is added.
  lemma PatchedHooks(agent: Agent, root: Value, binary: string, rtk: Option<string>)
    requires Patched(agent, root, binary, rtk).Ok?
    ensures var v := Patched(agent, root, binary, rtk).value;
            && v.Obj? && Entries(agent, v).Some?
            && Hooks(agent, Entries(agent, v).value)
                 == Staying(agent, Hooks(agent, EntriesOr(agent, root)), binary, rtk.Some?)
                    + [ManagedHook(agent, binary, rtk)]
            && (forall key: string :: key != "hooks" && !(agent == Cursor && key == "version") ==>
                  Get(v.fields, key) == Get(root.fields, key))
            && (forall key: string :: key != EventKey(agent) ==>
                  Member(Get(v.fields, "hooks").value, key)
                  == if Get(root.fields, "hooks").Some? then Member(Get(root.fields, "hooks").value, key) else None)
  {
    var fields, hooks := PatchedParts(agent, root, binary, rtk);
    var event, entries := EventKey(agent), NewEntries(agent, root, binary, rtk);
    WrittenEntries(agent, fields, hooks, entries);
    VersionedHooks(agent, root.fields);
    PatchedHookList(agent, EntriesOr(agent, root), binary, rtk);
    PutOnly(root.fields, "version", Int(1));
    PutOnly(fields, "hooks", Obj(Put(hooks, event, Arr(entries))));
    PutOnly(hooks, event, Arr(entries));
  }

  lemma PatchedHookList(agent: Agent, groups: seq<Value>, binary: string, rtk: Option<string>)
    ensures Hooks(agent, Retained(agent, groups, binary, rtk.Some?) + [ManagedEntry(agent, binary, rtk)])
         == Staying(agent, Hooks(agent, groups), binary, rtk.Some?) + [ManagedHook(agent, binary, rtk)]
  {
    var kept := Retained(agent, groups, binary, rtk.Some?);
    RetainedHooks(agent, groups, binary, rtk.Some?);
    ManagedEntryGoes(agent, binary, rtk, false);
    FlattenedAppend(kept, [ManagedEntry(agent, binary, rtk)]);
  }

  // ---- exactly one managed hook ----------------------------------------------------------

  // is_valid_agent_gov_claude_hook, and the filters of managed_hook_count
  predicate IsValidManaged(agent: Agent, hook: Value, binary: string) {
    IsManaged(agent, hook, binary)
    && match agent
       case Claude => AsStr(Member(hook, "type")) == Some("command") && AsU64(Member(hook, "timeout")) == Some(5)
       case Cursor => AsStr(Member(hook, "matcher")) == Some("Shell")
  }

  function CountValid(agent: Agent, hooks: seq<Value>, binary: string): nat {
    if hooks == [] then 0
    else (if IsValidManaged(agent, hooks[0], binary) then 1 else 0) + CountValid(agent, hooks[1..], binary)
  }

  function CountInGroups(groups: seq<Value>, binary: string): nat {
    if groups == [] then 0
    else
      (if AsStr(Member(groups[0], "matcher")) == Some("Bash") then CountValid(Claude, HooksOf(groups[0]), binary)
       else 0)
      + CountInGroups(groups[1..], binary)
  }

  // managed_hook_count
  function ManagedCount(agent: Agent, root: Value, binary: string): nat {
    match Entries(agent, root)
    case None => 0
    case Some(groups) =>
      match agent case Claude => CountInGroups(groups, binary) case Cursor => CountValid(Cursor, groups, binary)
  }

  lemma {:induction false} NoneValid(agent: Agent, hooks: seq<Value>, binary: string)
    requires forall h :: h in hooks ==> !IsManaged(agent, h, binary)
    ensures CountValid(agent, hooks, binary) == 0
  {
    if hooks != [] {
      assert hooks[0] in hooks;
      NoneValid(agent, hooks[1..], binary);
    }
  }

  lemma {:induction false} NoneInGroups(groups: seq<Value>, binary: string)
    requires forall h :: h in Flattened(groups) ==> !IsManaged(Claude, h, binary)
    ensures CountInGroups(groups, binary) == 0
  {
    if groups != [] {
      NoneValid(Claude, HooksOf(groups[0]), binary);
      NoneInGroups(groups[1..], binary);
    }
  }

  lemma {:induction false} CountAppend(agent: Agent, a: seq<Value>, b: seq<Value>, binary: string)
    ensures CountValid(agent, a + b, binary) == CountValid(agent, a, binary) + CountValid(agent, b, binary)
    ensures CountInGroups(a + b, binary) == CountInGroups(a, binary) + CountInGroups(b, binary)
  {
    if a == [] {
      assert a + b == b;
    } else {
      assert (a + b)[1..] == a[1..] + b;
      CountAppend(agent, a[1..], b, binary);
    }
  }

  lemma ManagedIsValid(agent: Agent, binary: string, rtk: Option<string>)
    ensures IsValidManaged(agent, ManagedHook(agent, binary, rtk), binary)
  {
    ManagedIsRecognised(agent, binary, rtk);
    match agent {
      case Claude => ClaudeHookFields(binary, rtk);
      case Cursor =>
        GetFirst("command", Str(CursorCommand(binary, rtk)), [("matcher", Str("Shell"))], "matcher");
        assert "command"[0] != "matcher"[0];
    }
  }

  lemma CountSingle(agent: Agent, hook: Value, binary: string)
    requires IsValidManaged(agent, hook, binary)
    ensures CountValid(agent, [hook], binary) == 1
  {
    assert [hook][1..] == [];
  }

  lemma CountSingleGroup(group: Value, binary: string)
    requires AsStr(Member(group, "matcher")) == Some("Bash")
    ensures CountInGroups([group], binary) == CountValid(Claude, HooksOf(group), binary)
  {
    assert [group][1..] == [];
  }

  lemma CountOne(agent: Agent, binary: string, rtk: Option<string>)
    ensures CountValid(agent, [ManagedHook(agent, binary, rtk)], binary) == 1
    ensures CountInGroups([ManagedEntry(Claude, binary, rtk)], binary) == 1
  {
    ManagedIsValid(agent, binary, rtk);
    CountSingle(agent, ManagedHook(agent, binary, rtk), binary);
    ManagedIsValid(Claude, binary, rtk);
    CountSingle(Claude, ManagedHook(Claude, binary, rtk), binary);
    ClaudeEntryHooks(binary, rtk);
    CountSingleGroup(ManagedEntry(Claude, binary, rtk), binary);
  }

  lemma ExactlyOneManaged(agent: Agent, root: Value, binary: string, rtk: Option<string>)
    requires Patched(agent, root, binary, rtk).Ok?
    ensures ManagedCount(agent, Patched(agent, root, binary, rtk).value, binary) == 1
  {
    var fields, hooks := PatchedParts(agent, root, binary, rtk);
    var kept := Retained(agent, EntriesOr(agent, root), binary, rtk.Some?);
    WrittenEntries(agent, fields, hooks, NewEntries(agent, root, binary, rtk));
    CountAppend(agent, kept, [ManagedEntry(agent, binary, rtk)], binary);
    RetainedHooks(agent, EntriesOr(agent, root), binary, rtk.Some?);
    CountOne(agent, binary, rtk);
    match agent {
      case Claude => NoneInGroups(kept, binary);
      case Cursor => NoneValid(Cursor, kept, binary);
    }
  }

  // ---- unpatching --------------------------------------------------------------------------

  // Whether the settings already have everything a patch would otherwise add.
  ghost predicate HasContainers(agent: Agent, root: Value) {
    root.Obj? && Entries(agent, root).Some? && (agent == Cursor ==> Get(root.fields, "version").Some?)
  }

  lemma RetainedSame(agent: Agent, groups: seq<Value>, binary: string)
    ensures Retained(agent, groups, binary, true) == Retained(agent, groups, binary, false)
       <==> NoOtherRtk(agent, Hooks(agent, groups), binary)
  {
    match agent {
      case Claude => ComposeKeepsGroups(groups, binary);
      case Cursor => ComposeRemoves(Cursor, groups, binary);
    }
  }

  lemma UnpatchedAfter(agent: Agent, root: Value, binary: string, rtk: Option<string>, fields: Fields, hooks: Fields)
    requires PatchParts(agent, root, fields, hooks)
    ensures var v := WithEntries(fields, hooks, EventKey(agent), NewEntries(agent, root, binary, rtk));
            Unpatched(agent, v, binary)
              == WithEntries(fields, hooks, EventKey(agent), Retained(agent, EntriesOr(agent, root), binary, rtk.Some?))
  {
    var key, entries := EventKey(agent), NewEntries(agent, root, binary, rtk);
    var kept := Retained(agent, EntriesOr(agent, root), binary, rtk.Some?);
    WrittenEntries(agent, fields, hooks, entries);
    RetainedAppend(agent, kept, [ManagedEntry(agent, binary, rtk)], binary, false);
    RetainedStays(agent, EntriesOr(agent, root), binary, rtk.Some?);
    ManagedEntryGoes(agent, binary, rtk, false);
    assert kept + [] == kept;
    WrittenTwice(fields, hooks, key, entries, kept);
  }

  lemma UnpatchedDirectly(agent: Agent, root: Value, binary: string, fields: Fields, hooks: Fields)
    requires PatchParts(agent, root, fields, hooks)
    ensures Entries(agent, root).Some? ==>
              Unpatched(agent, root, binary)
                == WithEntries(root.fields, hooks, EventKey(agent),
                               Retained(agent, EntriesOr(agent, root), binary, false))
    ensures Entries(agent, root) == None ==> Unpatched(agent, root, binary) == root
  {
    VersionedHooks(agent, root.fields);
  }

  // The events with hooks of their own.
  function EventsOf(root: Value): Fields {
    match Member(root, "hooks") case Some(Obj(events)) => events case _ => []
  }

  // The other events have the hooks they had.
  ghost predicate SameEvents(agent: Agent, root: Value, v: Value) {
    forall key: string :: key != EventKey(agent) ==> Get(EventsOf(v), key) == Get(EventsOf(root), key)
  }

  ghost predicate SameFields(root: Value, v: Value)
    requires root.Obj? && v.Obj?
  {
    forall key: string :: key != "hooks" ==> Get(v.fields, key) == Get(root.fields, key)
  }

  lemma WrittenElsewhere(agent: Agent, root: Value, fields: Fields, hooks: Fields, entries: seq<Value>)
    requires EventsOf(root) == hooks
    ensures var v := WithEntries(fields, hooks, EventKey(agent), entries);
            SameEvents(agent, root, v) && SameFields(Obj(fields), v)
  {
    WrittenEntries(agent, fields, hooks, entries);
    PutOnly(hooks, EventKey(agent), Arr(entries));
    PutOnly(fields, "hooks", Obj(Put(hooks, EventKey(agent), Arr(entries))));
  }

  lemma UnpatchedElsewhere(agent: Agent, root: Value, binary: string)
    requires root.Obj?
    ensures var v := Unpatched(agent, root, binary);
            v.Obj? && SameEvents(agent, root, v) && SameFields(root, v)
            && EntriesOr(agent, v) == Retained(agent, EntriesOr(agent, root), binary, false)
  {
    if Entries(agent, root).Some? {
      var hooks := Member(root, "hooks").value.fields;
      var kept := Retained(agent, EntriesOr(agent, root), binary, false);
      WrittenEntries(agent, root.fields, hooks, kept);
      WrittenElsewhere(agent, root, root.fields, hooks, kept);
    }
  }

  lemma {:induction false} FilteredAre(keep: Value -> bool, s: seq<Value>, h: Value)
    ensures h in Filter(keep, s) <==> h in s && keep(h)
  {
    if s != [] {
      FilteredAre(keep, s[1..], h);
    }
  }

  // After unpatching no managed hook is left; every other hook is, in order, and nothing
  // outside the hook list differs.
  lemma UnpatchedHooks(agent: Agent, root: Value, binary: string)
    requires root.Obj?
    ensures var v := Unpatched(agent, root, binary);
            && v.Obj? && (Entries(agent, root) == None ==> v == root)
            && Hooks(agent, EntriesOr(agent, v)) == Staying(agent, Hooks(agent, EntriesOr(agent, root)), binary, false)
            && (forall h :: h in Hooks(agent, EntriesOr(agent, v)) <==>
                              h in Hooks(agent, EntriesOr(agent, root)) && !IsManaged(agent, h, binary))
            && ManagedCount(agent, v, binary) == 0
            && SameFields(root, v) && SameEvents(agent, root, v)
  {
    UnpatchedElsewhere(agent, root, binary);
    UnpatchedList(agent, EntriesOr(agent, root), binary);
    NoneCounted(agent, Unpatched(agent, root, binary), binary);
  }

  lemma UnpatchedList(agent: Agent, groups: seq<Value>, binary: string)
    ensures var left := Hooks(agent, Retained(agent, groups, binary, false));
            && left == Staying(agent, Hooks(agent, groups), binary, false)
            && (groups == [] ==> Retained(agent, groups, binary, false) == [])
            && forall h :: h in left <==> h in Hooks(agent, groups) && !IsManaged(agent, h, binary)
  {
    var left := Hooks(agent, Retained(agent, groups, binary, false));
    RetainedHooks(agent, groups, binary, false);
    forall h ensures h in left <==> h in Hooks(agent, groups) && !IsManaged(agent, h, binary) {
      FilteredAre(Keeper(agent, binary, false), Hooks(agent, groups), h);
    }
  }

  lemma NoneCounted(agent: Agent, v: Value, binary: string)
    requires forall h :: h in Hooks(agent, EntriesOr(agent, v)) ==> !IsManaged(agent, h, binary)
    ensures ManagedCount(agent, v, binary) == 0
  {
    match agent {
      case Claude => NoneInGroups(EntriesOr(Claude, v), binary);
      case Cursor => NoneValid(Cursor, EntriesOr(Cursor, v), binary);
    }
  }

  // What a patch adds, said of the settings alone: one managed hook behind those that stay.
  ghost predicate GainsHook(agent: Agent, root: Value, v: Value, binary: string, rtk: Option<string>) {
    && root.Obj? && v.Obj? && ManagedCount(agent, v, binary) == 1
    && Get(EventsOf(v), match agent case Claude => "PreToolUse" case Cursor => "preToolUse")
         == Some(Arr(EntriesOr(agent, v)))
    && Hooks(agent, EntriesOr(agent, v))
         == Staying(agent, Hooks(agent, EntriesOr(agent, root)), binary, rtk.Some?) + [ManagedHook(agent, binary, rtk)]
    && (forall key: string :: key != "hooks" && !(agent == Cursor && key == "version") ==>
          Get(v.fields, key) == Get(root.fields, key))
    && (agent == Cursor ==> AsU64(Get(v.fields, "version")) == Some(1))
    && (forall h :: h in Hooks(agent, EntriesOr(agent, v)) <==>
                      h == ManagedHook(agent, binary, rtk)
                      || (h in Hooks(agent, EntriesOr(agent, root)) && !Goes(agent, h, binary, rtk.Some?)))
    && SameEvents(agent, root, v)
  }

  // The program's own hook, and, when RTK is to be composed, the hooks of RTK itself.
  ghost predicate Goes(agent: Agent, h: Value, binary: string, compose: bool) {
    OwnHook(agent, h, binary) || (compose && RtkHook(agent, h))
  }

  ghost predicate OwnHook(agent: Agent, h: Value, binary: string) {
    match agent
    case Claude =>
      && Member(h, "command") == Some(Str(binary))
      && exists args: seq<Value> :: Member(h, "args") == Some(Arr(args)) && [Str("hook"), Str("claude")] <= args
    case Cursor =>
      exists command: string, words: seq<string> ::
        Member(h, "command") == Some(Str(command)) && Split(command) == Some(words)
          && [binary, "hook", "cursor"] <= words
  }

  ghost predicate RtkHook(agent: Agent, h: Value) {
    exists command: string, words: seq<string> ::
      && Member(h, "command") == Some(Str(command)) && Split(command) == Some(words) && words != []
      && (FileName(words[0]) == Some("rtk-rewrite.sh")
          || (FileName(words[0]) == Some("rtk")
              && words[1..] == ["hook", match agent case Claude => "claude" case Cursor => "cursor"]))
  }

  lemma OwnExactly(agent: Agent, h: Value, binary: string)
    ensures IsManaged(agent, h, binary) <==> OwnHook(agent, h, binary)
  {
    if IsManaged(agent, h, binary) {
      match agent {
        case Claude =>
          var args := AsArray(Member(h, "args")).value;
          assert [Str("hook"), Str("claude")] == args[..2];
        case Cursor =>
          var command := AsStr(Member(h, "command")).value;
          var words := Split(command).value;
          assert [binary, "hook", "cursor"] == words[..3];
          assert Split(command) == Some(words) && Member(h, "command") == Some(Str(command));
      }
    }
    if OwnHook(agent, h, binary) && agent == Cursor {
      var command: string, words: seq<string> :|
        Member(h, "command") == Some(Str(command)) && Split(command) == Some(words)
          && [binary, "hook", "cursor"] <= words;
      assert words[..3] == [binary, "hook", "cursor"];
      assert words[0] == words[..3][0] && words[1] == words[..3][1] && words[2] == words[..3][2];
    }
  }

  lemma RtkExactly(agent: Agent, h: Value)
    ensures RtkHook(agent, h) <==>
              AsStr(Member(h, "command")).Some? && IsKnownRtk(AsStr(Member(h, "command")).value, HostName(agent))
  {
    var host := match agent case Claude => "claude" case Cursor => "cursor";
    assert HostName(agent) == host;
    if AsStr(Member(h, "command")).Some? && IsKnownRtk(AsStr(Member(h, "command")).value, HostName(agent)) {
      var command := AsStr(Member(h, "command")).value;
      var words := Split(command).value;
      assert |words| == 3 && words[1] == "hook" && words[2] == host ==> words[1..] == ["hook", host];
      assert Member(h, "command") == Some(Str(command)) && Split(command) == Some(words);
    }
    if RtkHook(agent, h) {
      var command: string, words: seq<string> :|
        && Member(h, "command") == Some(Str(command)) && Split(command) == Some(words) && words != []
        && (FileName(words[0]) == Some("rtk-rewrite.sh")
            || (FileName(words[0]) == Some("rtk") && words[1..] == ["hook", host]));
      assert words[1..] == ["hook", host] ==> words[1..][0] == words[1] && words[1..][1] == words[2];
    }
  }

  // Which hooks an edit takes out.
  lemma GoesExactly(agent: Agent, h: Value, binary: string, compose: bool)
    ensures Stays(agent, h, binary, compose) <==> !Goes(agent, h, binary, compose)
  {
    OwnExactly(agent, h, binary);
    RtkExactly(agent, h);
  }

  lemma PatchedList(agent: Agent, hooks: seq<Value>, binary: string, rtk: Option<string>, h: Value)
    ensures h in Staying(agent, hooks, binary, rtk.Some?) + [ManagedHook(agent, binary, rtk)] <==>
              h == ManagedHook(agent, binary, rtk) || (h in hooks && !Goes(agent, h, binary, rtk.Some?))
  {
    FilteredAre(Keeper(agent, binary, rtk.Some?), hooks, h);
    GoesExactly(agent, h, binary, rtk.Some?);
  }

  lemma PatchedVersion(agent: Agent, root: Value, binary: string, rtk: Option<string>)
    requires Patched(agent, root, binary, rtk).Ok?
    ensures var v := Patched(agent, root, binary, rtk).value;
            && v.Obj? && (agent == Cursor ==> AsU64(Get(v.fields, "version")) == Some(1)) && SameEvents(agent, root, v)
            && Get(EventsOf(v), EventKey(agent)) == Some(Arr(EntriesOr(agent, v)))
  {
    var fields, hooks := PatchedParts(agent, root, binary, rtk);
    var entries := NewEntries(agent, root, binary, rtk);
    VersionedHooks(agent, root.fields);
    WrittenEntries(agent, fields, hooks, entries);
    WrittenElsewhere(agent, root, fields, hooks, entries);
  }

  lemma PatchedGains(agent: Agent, root: Value, binary: string, rtk: Option<string>)
    requires Patched(agent, root, binary, rtk).Ok?
    ensures GainsHook(agent, root, Patched(agent, root, binary, rtk).value, binary, rtk)
  {
    PatchedHooks(agent, root, binary, rtk);
    ExactlyOneManaged(agent, root, binary, rtk);
    PatchedVersion(agent, root, binary, rtk);
    forall h
      ensures h in Staying(agent, Hooks(agent, EntriesOr(agent, root)), binary, rtk.Some?)
                   + [ManagedHook(agent, binary, rtk)] <==>
              h == ManagedHook(agent, binary, rtk)
              || (h in Hooks(agent, EntriesOr(agent, root)) && !Goes(agent, h, binary, rtk.Some?))
    {
      PatchedList(agent, Hooks(agent, EntriesOr(agent, root)), binary, rtk, h);
    }
  }

  // Which settings can be patched.
  lemma PatchableExactly(agent: Agent, root: Value, binary: string, rtk: Option<string>)
    ensures Patched(agent, root, binary, rtk).Ok? <==>
              && root.Obj?
              && (agent == Cursor ==> Get(root.fields, "version") in {None, Some(Int(1))})
              && var hooks := Get(root.fields, "hooks");
                 && (hooks.Some? ==> hooks.value.Obj?)
                 && (hooks.Some? && Member(hooks.value, EventKey(agent)).Some? ==>
                       Member(hooks.value, EventKey(agent)).value.Arr?)
  {
    if root.Obj? {
      VersionedHooks(agent, root.fields);
    }
  }

  // Unpatching a patch is unpatching the original, exactly when the original already has
  // the containers a patch creates and composing removed no RTK hook of another origin.
  lemma UnpatchUndoesPatch(agent: Agent, root: Value, binary: string, rtk: Option<string>)
    requires Patched(agent, root, binary, rtk).Ok?
    ensures Unpatched(agent, Patched(agent, root, binary, rtk).value, binary) == Unpatched(agent, root, binary)
       <==> (HasContainers(agent, root)
             && (rtk.Some? ==> NoOtherRtk(agent, Hooks(agent, EntriesOr(agent, root)), binary)))
  {
    var fields, hooks := PatchedParts(agent, root, binary, rtk);
    var key, groups := EventKey(agent), EntriesOr(agent, root);
    var a, b := Retained(agent, groups, binary, rtk.Some?), Retained(agent, groups, binary, false);
    UnpatchedAfter(agent, root, binary, rtk, fields, hooks);
    UnpatchedDirectly(agent, root, binary, fields, hooks);
    VersionedHooks(agent, root.fields);
    RetainedSame(agent, groups, binary);
    WrittenEntries(agent, fields, hooks, a);
    WrittenEntries(agent, root.fields, hooks, b);
  }
}

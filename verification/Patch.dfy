// Adding the managed hook to a host's settings and taking it out again.
module Patch {
  import opened Wrappers
  import opened Words
  import opened Paths
  import opened Json

  datatype Agent = Claude | Cursor

  datatype PatchError = NotAnObject | NotAnArray | UnsupportedVersion

  function EventKey(agent: Agent): string {
    match agent case Claude => "PreToolUse" case Cursor => "preToolUse"
  }

  function HostName(agent: Agent): string {
    match agent case Claude => "claude" case Cursor => "cursor"
  }

  // ---- recognising hooks -------------------------------------------------------------

  // is_known_rtk_command
  predicate IsKnownRtk(command: string, host: string) {
    match Split(command)
    case None => false
    case Some(argv) =>
      argv != []
      && (FileName(argv[0]) == Some("rtk-rewrite.sh")
          || (FileName(argv[0]) == Some("rtk") && |argv| == 3 && argv[1] == "hook" && argv[2] == host))
  }

  predicate IsManagedClaude(hook: Value, binary: string) {
    && AsStr(Member(hook, "command")) == Some(binary)
    && var args := AsArray(Member(hook, "args"));
       args.Some? && |args.value| >= 2 && args.value[0] == Str("hook") && args.value[1] == Str("claude")
  }

  predicate IsManagedCursorCommand(command: string, binary: string) {
    match Split(command)
    case None => false
    case Some(argv) => |argv| >= 3 && argv[0] == binary && argv[1] == "hook" && argv[2] == "cursor"
  }

  // A hook of a Claude group, or an entry of the Cursor list.
  predicate IsManaged(agent: Agent, hook: Value, binary: string) {
    match agent
    case Claude => IsManagedClaude(hook, binary)
    case Cursor =>
      var command := AsStr(Member(hook, "command"));
      command.Some? && IsManagedCursorCommand(command.value, binary)
  }

  predicate IsOtherRtk(agent: Agent, hook: Value, binary: string) {
    var command := AsStr(Member(hook, "command"));
    !IsManaged(agent, hook, binary) && command.Some? && IsKnownRtk(command.value, HostName(agent))
  }

  // compose: the known RTK hooks go too, because the managed hook calls RTK itself.
  predicate Stays(agent: Agent, hook: Value, binary: string, compose: bool) {
    !IsManaged(agent, hook, binary) && !(compose && IsOtherRtk(agent, hook, binary))
  }

  function Filter(keep: Value -> bool, s: seq<Value>): (kept: seq<Value>)
    ensures |kept| <= |s| && forall h :: h in kept ==> h in s && keep(h)
  {
    if s == [] then []
    else if keep(s[0]) then [s[0]] + Filter(keep, s[1..])
    else Filter(keep, s[1..])
  }

  function Keeper(agent: Agent, binary: string, compose: bool): Value -> bool {
    hook => Stays(agent, hook, binary, compose)
  }

  function Staying(agent: Agent, hooks: seq<Value>, binary: string, compose: bool): (kept: seq<Value>) {
    Filter(Keeper(agent, binary, compose), hooks)
  }

  // ---- groups --------------------------------------------------------------------------

  function HooksOf(group: Value): seq<Value> {
    match AsArray(Member(group, "hooks")) case Some(hooks) => hooks case None => []
  }

  // What is left of a Claude group; None when its last hook went.
  function KeptGroup(group: Value, binary: string, compose: bool): Option<Value> {
    match AsArray(Member(group, "hooks"))
    case None => Some(group)
    case Some(hooks) =>
      var kept := Staying(Claude, hooks, binary, compose);
      if hooks != [] && kept == [] then None else Some(Obj(Put(group.fields, "hooks", Arr(kept))))
  }

  function KeptGroups(groups: seq<Value>, binary: string, compose: bool): seq<Value> {
    if groups == [] then []
    else
      match KeptGroup(groups[0], binary, compose)
      case Some(g) => [g] + KeptGroups(groups[1..], binary, compose)
      case None => KeptGroups(groups[1..], binary, compose)
  }

  // retain_claude_hooks
  method RetainClaudeHooks(groups: seq<Value>, binary: string, compose: bool) returns (kept: seq<Value>)
    ensures kept == KeptGroups(groups, binary, compose)
  {
    kept := [];
    for i := 0 to |groups|
      invariant kept + KeptGroups(groups[i..], binary, compose) == KeptGroups(groups, binary, compose)
    {
      var rest := groups[i..];
      assert rest[0] == groups[i] && rest[1..] == groups[i + 1..];
      match KeptGroup(groups[i], binary, compose) {
        case None =>
        case Some(group) =>
          Regroup(kept, group, KeptGroups(rest[1..], binary, compose));
          kept := kept + [group];
      }
    }
  }

  lemma Regroup(kept: seq<Value>, group: Value, rest: seq<Value>)
    ensures (kept + [group]) + rest == kept + ([group] + rest)
  {
  }

  // Entries of the host's list after the managed ones are taken out.
  function Retained(agent: Agent, groups: seq<Value>, binary: string, compose: bool): seq<Value> {
    match agent
    case Claude => KeptGroups(groups, binary, compose)
    case Cursor => Staying(Cursor, groups, binary, compose)
  }

  // All hooks of a list of entries, in order.
  function Flattened(groups: seq<Value>): seq<Value> {
    if groups == [] then [] else HooksOf(groups[0]) + Flattened(groups[1..])
  }

  function Hooks(agent: Agent, groups: seq<Value>): seq<Value> {
    match agent case Claude => Flattened(groups) case Cursor => groups
  }

  // ---- the managed entry -----------------------------------------------------------------

  function ClaudeArgs(rtk: Option<string>): seq<Value> {
    [Str("hook"), Str("claude")] + match rtk case Some(path) => [Str("--rtk"), Str(path)] case None => []
  }

  function ClaudeHook(binary: string, rtk: Option<string>): Value {
    Obj([("type", Str("command")), ("command", Str(binary)), ("args", Arr(ClaudeArgs(rtk))), ("timeout", Int(5))])
  }

  function CursorCommand(binary: string, rtk: Option<string>): string {
    Quote(binary) + " hook cursor" + match rtk case Some(path) => " --rtk " + Quote(path) case None => ""
  }

  function ManagedHook(agent: Agent, binary: string, rtk: Option<string>): Value {
    match agent
    case Claude => ClaudeHook(binary, rtk)
    case Cursor => Obj([("command", Str(CursorCommand(binary, rtk))), ("matcher", Str("Shell"))])
  }

  function ManagedEntry(agent: Agent, binary: string, rtk: Option<string>): Value {
    match agent
    case Claude => Obj([("matcher", Str("Bash")), ("hooks", Arr([ClaudeHook(binary, rtk)]))])
    case Cursor => ManagedHook(Cursor, binary, rtk)
  }

  // ---- settings --------------------------------------------------------------------------

  function ObjectAt(fields: Fields, key: string): Result<Fields, PatchError> {
    match Get(fields, key)
    case None => Ok([])
    case Some(Obj(inner)) => Ok(inner)
    case Some(_) => Err(NotAnObject)
  }

  function ArrayAt(fields: Fields, key: string): Result<seq<Value>, PatchError> {
    match Get(fields, key)
    case None => Ok([])
    case Some(Arr(items)) => Ok(items)
    case Some(_) => Err(NotAnArray)
  }

  function WithEntries(fields: Fields, hooks: Fields, key: string, entries: seq<Value>): Value {
    Obj(Put(fields, "hooks", Obj(Put(hooks, key, Arr(entries)))))
  }

  // Cursor settings carry a version; it must be 1 and is added when missing.
  function Versioned(agent: Agent, fields: Fields): Result<Fields, PatchError> {
    if agent == Claude then Ok(fields)
    else
      match Get(fields, "version")
      case Some(v) => if AsU64(Some(v)) == Some(1) then Ok(fields) else Err(UnsupportedVersion)
      case None => Ok(Put(fields, "version", Int(1)))
  }

  function Patched(agent: Agent, root: Value, binary: string, rtk: Option<string>): Result<Value, PatchError> {
    if !root.Obj? then Err(NotAnObject)
    else
      match Versioned(agent, root.fields)
      case Err(e) => Err(e)
      case Ok(fields) =>
        match ObjectAt(fields, "hooks")
        case Err(e) => Err(e)
        case Ok(hooks) =>
          match ArrayAt(hooks, EventKey(agent))
          case Err(e) => Err(e)
          case Ok(groups) =>
            Ok(WithEntries(fields, hooks, EventKey(agent),
                           Retained(agent, groups, binary, rtk.Some?) + [ManagedEntry(agent, binary, rtk)]))
  }

  // The array at /hooks/<event>, if there is one.
  function Entries(agent: Agent, root: Value): Option<seq<Value>> {
    match Member(root, "hooks")
    case Some(hooks) => AsArray(Member(hooks, EventKey(agent)))
    case None => None
  }

  function Unpatched(agent: Agent, root: Value, binary: string): Value {
    match Entries(agent, root)
    case None => root
    case Some(groups) =>
      WithEntries(root.fields, Member(root, "hooks").value.fields, EventKey(agent),
                  Retained(agent, groups, binary, false))
  }

  // ---- filtering ---------------------------------------------------------------------------

  lemma {:induction false} FilterAppend(keep: Value -> bool, a: seq<Value>, b: seq<Value>)
    ensures Filter(keep, a + b) == Filter(keep, a) + Filter(keep, b)
  {
    if a == [] {
      assert a + b == b;
    } else {
      assert (a + b)[1..] == a[1..] + b;
      FilterAppend(keep, a[1..], b);
    }
  }

  // A stricter filter after a weaker one is the stricter one.
  lemma {:induction false} FilterTwice(first: Value -> bool, then_: Value -> bool, s: seq<Value>)
    requires forall h :: h in s && then_(h) ==> first(h)
    ensures Filter(then_, Filter(first, s)) == Filter(then_, s)
  {
    if s != [] {
      FilterTwice(first, then_, s[1..]);
      assert s[0] in s;
      if first(s[0]) {
        var rest := Filter(first, s[1..]);
        assert ([s[0]] + rest)[1..] == rest;
      }
    }
  }

  lemma StayingTwice(agent: Agent, hooks: seq<Value>, binary: string, first: bool, then_: bool)
    requires first ==> then_
    ensures Staying(agent, Staying(agent, hooks, binary, first), binary, then_) == Staying(agent, hooks, binary, then_)
  {
    FilterTwice(Keeper(agent, binary, first), Keeper(agent, binary, then_), hooks);
  }

  // A stricter filter leaves as much only when it drops nothing the weaker one keeps.
  lemma {:induction false} FilterLoses(weak: Value -> bool, strict: Value -> bool, s: seq<Value>)
    requires forall h :: h in s && strict(h) ==> weak(h)
    ensures |Filter(strict, s)| <= |Filter(weak, s)|
    ensures |Filter(strict, s)| == |Filter(weak, s)| <==> forall h :: h in s && weak(h) ==> strict(h)
    ensures Filter(strict, s) == Filter(weak, s) <==> forall h :: h in s && weak(h) ==> strict(h)
  {
    if s != [] {
      FilterLoses(weak, strict, s[1..]);
      assert forall h :: h in s <==> h == s[0] || h in s[1..];
    }
  }

  ghost predicate NoOtherRtk(agent: Agent, hooks: seq<Value>, binary: string) {
    forall h :: h in hooks ==> !IsOtherRtk(agent, h, binary)
  }

  // Composing removes more exactly when there is an RTK hook of another origin.
  lemma ComposeRemoves(agent: Agent, hooks: seq<Value>, binary: string)
    ensures |Staying(agent, hooks, binary, true)| == |Staying(agent, hooks, binary, false)|
       <==> NoOtherRtk(agent, hooks, binary)
    ensures Staying(agent, hooks, binary, true) == Staying(agent, hooks, binary, false)
       <==> NoOtherRtk(agent, hooks, binary)
  {
    var weak, strict := Keeper(agent, binary, false), Keeper(agent, binary, true);
    FilterLoses(weak, strict, hooks);
    assert forall h :: weak(h) && !strict(h) <==> IsOtherRtk(agent, h, binary);
  }

  // ---- Claude groups -------------------------------------------------------------------------

  lemma KeptGroupHooks(group: Value, binary: string, compose: bool)
    ensures var kept := KeptGroup(group, binary, compose);
            && (kept.Some? ==> HooksOf(kept.value) == Staying(Claude, HooksOf(group), binary, compose))
            && (kept == None ==> Staying(Claude, HooksOf(group), binary, compose) == [])
  {
    match AsArray(Member(group, "hooks")) {
      case None =>
      case Some(hooks) => GetPut(group.fields, "hooks", Arr(Staying(Claude, hooks, binary, compose)), "hooks");
    }
  }

  // A group goes exactly when it had hooks and none of them stays. What is left of any
  // other has the hooks that stay and, for the rest, the fields it had; a group without a
  // list of hooks is left alone.
  lemma KeptGroupExactly(group: Value, binary: string, compose: bool)
    ensures var hooks := AsArray(Member(group, "hooks"));
            var kept := KeptGroups([group], binary, compose);
            if hooks == None then kept == [group]
            else
              var stay := Staying(Claude, hooks.value, binary, compose);
              if hooks.value != [] && stay == [] then kept == []
              else
                && |kept| == 1 && kept[0].Obj? && Get(kept[0].fields, "hooks") == Some(Arr(stay))
                && SameBut(group.fields, kept[0].fields, "hooks", "hooks")
  {
    assert [group][1..] == [];
    var hooks := AsArray(Member(group, "hooks"));
    if hooks.Some? {
      PutOnly(group.fields, "hooks", Arr(Staying(Claude, hooks.value, binary, compose)));
    }
  }

  // The words of the managed hook, as the host runs it.
  lemma ClaudeHookWords(binary: string, rtk: Option<string>)
    ensures Member(ClaudeHook(binary, rtk), "command") == Some(Str(binary))
    ensures Member(ClaudeHook(binary, rtk), "args")
         == Some(Arr(match rtk
                     case None => [Str("hook"), Str("claude")]
                     case Some(path) => [Str("hook"), Str("claude"), Str("--rtk"), Str(path)]))
  {
    ClaudeHookFields(binary, rtk);
    var args := [Str("hook"), Str("claude")];
    match rtk {
      case None => assert args + [] == args;
      case Some(path) =>
        assert args + [Str("--rtk"), Str(path)] == [Str("hook"), Str("claude"), Str("--rtk"), Str(path)];
    }
  }

  // The hooks left are those that stay, in their order.
  lemma {:induction false} KeptHooks(groups: seq<Value>, binary: string, compose: bool)
    ensures Flattened(KeptGroups(groups, binary, compose)) == Staying(Claude, Flattened(groups), binary, compose)
  {
    if groups != [] {
      KeptHooks(groups[1..], binary, compose);
      KeptGroupHooks(groups[0], binary, compose);
      FilterAppend(Keeper(Claude, binary, compose), HooksOf(groups[0]), Flattened(groups[1..]));
      var rest := KeptGroups(groups[1..], binary, compose);
      match KeptGroup(groups[0], binary, compose) {
        case None => assert [] + rest == rest;
        case Some(g) => assert ([g] + rest)[1..] == rest;
      }
    }
  }

  lemma {:induction false} KeptGroupsAppend(a: seq<Value>, b: seq<Value>, binary: string, compose: bool)
    ensures KeptGroups(a + b, binary, compose) == KeptGroups(a, binary, compose) + KeptGroups(b, binary, compose)
  {
    if a == [] {
      assert a + b == b;
    } else {
      assert (a + b)[1..] == a[1..] + b;
      KeptGroupsAppend(a[1..], b, binary, compose);
    }
  }

  lemma KeptGroupTwice(group: Value, binary: string, first: bool, then_: bool)
    requires first ==> then_
    ensures var once := KeptGroup(group, binary, first);
            if once.Some? then KeptGroup(once.value, binary, then_) == KeptGroup(group, binary, then_)
            else KeptGroup(group, binary, then_) == None
  {
    match AsArray(Member(group, "hooks")) {
      case None =>
      case Some(hooks) =>
        var kept, kept2 := Staying(Claude, hooks, binary, first), Staying(Claude, hooks, binary, then_);
        StayingTwice(Claude, hooks, binary, first, then_);
        GetPut(group.fields, "hooks", Arr(kept), "hooks");
        PutPut(group.fields, "hooks", Arr(kept), Arr(kept2));
    }
  }

  lemma {:induction false} KeptGroupsTwice(groups: seq<Value>, binary: string, first: bool, then_: bool)
    requires first ==> then_
    ensures KeptGroups(KeptGroups(groups, binary, first), binary, then_) == KeptGroups(groups, binary, then_)
  {
    if groups != [] {
      KeptGroupsTwice(groups[1..], binary, first, then_);
      KeptGroupTwice(groups[0], binary, first, then_);
      var rest := KeptGroups(groups[1..], binary, first);
      match KeptGroup(groups[0], binary, first) {
        case None => assert [] + rest == rest;
        case Some(g) => assert ([g] + rest)[1..] == rest;
      }
    }
  }

  lemma {:induction false} FilterStays(keep: Value -> bool, s: seq<Value>)
    requires forall h :: h in s ==> keep(h)
    ensures Filter(keep, s) == s
  {
    if s != [] {
      assert s[0] in s;
      FilterStays(keep, s[1..]);
      assert s == [s[0]] + s[1..];
    }
  }

  lemma KeptGroupStays(group: Value, binary: string, compose: bool)
    ensures var kept := KeptGroup(group, binary, compose);
            kept.Some? ==> KeptGroup(kept.value, binary, false) == kept
  {
    match AsArray(Member(group, "hooks")) {
      case None =>
      case Some(hooks) =>
        var kept := Staying(Claude, hooks, binary, compose);
        FilterStays(Keeper(Claude, binary, false), kept);
        GetPut(group.fields, "hooks", Arr(kept), "hooks");
        PutPut(group.fields, "hooks", Arr(kept), Arr(kept));
    }
  }

  lemma {:induction false} KeptGroupsStay(groups: seq<Value>, binary: string, compose: bool)
    ensures KeptGroups(KeptGroups(groups, binary, compose), binary, false) == KeptGroups(groups, binary, compose)
  {
    if groups != [] {
      KeptGroupsStay(groups[1..], binary, compose);
      KeptGroupStays(groups[0], binary, compose);
      var rest := KeptGroups(groups[1..], binary, compose);
      match KeptGroup(groups[0], binary, compose) {
        case None =>
        case Some(g) => assert ([g] + rest)[1..] == rest;
      }
    }
  }

  // Composing changes the groups exactly when it removes a hook.
  lemma {:induction false} ComposeKeepsGroups(groups: seq<Value>, binary: string)
    ensures KeptGroups(groups, binary, true) == KeptGroups(groups, binary, false)
       <==> NoOtherRtk(Claude, Flattened(groups), binary)
  {
    KeptHooks(groups, binary, true);
    KeptHooks(groups, binary, false);
    ComposeRemoves(Claude, Flattened(groups), binary);
    if NoOtherRtk(Claude, Flattened(groups), binary) {
      SameGroups(groups, binary);
    }
  }

  lemma {:induction false} SameGroups(groups: seq<Value>, binary: string)
    requires NoOtherRtk(Claude, Flattened(groups), binary)
    ensures KeptGroups(groups, binary, true) == KeptGroups(groups, binary, false)
  {
    if groups != [] {
      ComposeRemoves(Claude, HooksOf(groups[0]), binary);
      SameGroups(groups[1..], binary);
    }
  }

  // ---- main results ---------------------------------------------------------------------------

  lemma RetainedHooks(agent: Agent, groups: seq<Value>, binary: string, compose: bool)
    ensures Hooks(agent, Retained(agent, groups, binary, compose))
         == Staying(agent, Hooks(agent, groups), binary, compose)
  {
    KeptHooks(groups, binary, compose);
  }

  lemma RetainedTwice(agent: Agent, groups: seq<Value>, binary: string, first: bool, then_: bool)
    requires first ==> then_
    ensures Retained(agent, Retained(agent, groups, binary, first), binary, then_)
         == Retained(agent, groups, binary, then_)
  {
    KeptGroupsTwice(groups, binary, first, then_);
    StayingTwice(agent, groups, binary, first, then_);
  }

  // What stayed under a filter stays under a weaker one.
  lemma RetainedStays(agent: Agent, groups: seq<Value>, binary: string, compose: bool)
    ensures Retained(agent, Retained(agent, groups, binary, compose), binary, false)
         == Retained(agent, groups, binary, compose)
  {
    match agent {
      case Claude => KeptGroupsStay(groups, binary, compose);
      case Cursor => FilterStays(Keeper(agent, binary, false), Staying(agent, groups, binary, compose));
    }
  }

  lemma RetainedAppend(agent: Agent, a: seq<Value>, b: seq<Value>, binary: string, compose: bool)
    ensures Retained(agent, a + b, binary, compose)
         == Retained(agent, a, binary, compose) + Retained(agent, b, binary, compose)
  {
    KeptGroupsAppend(a, b, binary, compose);
    FilterAppend(Keeper(agent, binary, compose), a, b);
  }

  function CursorWords(binary: string, rtk: Option<string>): seq<string> {
    [binary, "hook", "cursor"] + match rtk case Some(path) => ["--rtk", path] case None => []
  }

  lemma CursorPlainWords(binary: string)
    ensures Split(CursorCommand(binary, None)) == Some(CursorWords(binary, None))
  {
    var s1 := "hook" + " " + "cursor";
    SplitPlain("cursor");
    SplitPlainThen("hook", "cursor");
    assert Split(s1) == Some(["hook"] + ["cursor"]);
    SplitQuoteThen(binary, s1);
    assert " hook cursor" == " " + ("hook" + (" " + "cursor"));
    assert CursorCommand(binary, None) == Quote(binary) + " " + s1;
    assert [binary] + (["hook"] + ["cursor"]) == CursorWords(binary, None);
  }

  lemma CursorRtkWords(binary: string, path: string)
    ensures Split(CursorCommand(binary, Some(path))) == Some(CursorWords(binary, Some(path)))
  {
    var s2 := "--rtk" + " " + Quote(path);
    var s1 := "cursor" + " " + s2;
    SplitQuote(path);
    SplitPlainThen("--rtk", Quote(path));
    assert Split(s2) == Some(["--rtk"] + [path]);
    SplitPlainThen("cursor", s2);
    SplitPlainThen("hook", s1);
    SplitQuoteThen(binary, "hook" + " " + s1);
    CursorText(binary, path);
    assert [binary] + (["hook"] + (["cursor"] + (["--rtk"] + [path]))) == CursorWords(binary, Some(path));
  }

  // The words the shell sees in an installed Cursor command.
  lemma CursorCommandWords(binary: string, rtk: Option<string>)
    ensures Split(CursorCommand(binary, rtk)) == Some(CursorWords(binary, rtk))
  {
    match rtk {
      case None => CursorPlainWords(binary);
      case Some(path) => CursorRtkWords(binary, path);
    }
  }

  lemma CursorText(binary: string, path: string)
    ensures CursorCommand(binary, Some(path))
         == Quote(binary) + " " + ("hook" + " " + ("cursor" + " " + ("--rtk" + " " + Quote(path))))
  {
    assert " hook cursor" == " " + ("hook" + (" " + "cursor"));
    assert " --rtk " == " " + ("--rtk" + " ");
  }

  lemma GetFirst(key: string, v: Value, rest: Fields, other: string)
    ensures Get([(key, v)] + rest, other) == if key == other then Some(v) else Get(rest, other)
  {
    assert ([(key, v)] + rest)[1..] == rest;
  }

  lemma ClaudeHookFields(binary: string, rtk: Option<string>)
    ensures var hook := ClaudeHook(binary, rtk);
            && Member(hook, "command") == Some(Str(binary))
            && Member(hook, "args") == Some(Arr(ClaudeArgs(rtk)))
            && Member(hook, "type") == Some(Str("command"))
            && Member(hook, "timeout") == Some(Int(5))
  {
    assert "timeout"[0] != "command"[0];
  }

  lemma CursorIsRecognised(binary: string, rtk: Option<string>)
    ensures IsManaged(Cursor, ManagedHook(Cursor, binary, rtk), binary)
  {
    var command := CursorCommand(binary, rtk);
    CursorCommandWords(binary, rtk);
    assert IsManagedCursorCommand(command, binary);
    GetFirst("command", Str(command), [("matcher", Str("Shell"))], "command");
    assert Member(ManagedHook(Cursor, binary, rtk), "command") == Some(Str(command));
  }

  // The installed hook is recognised, whatever the paths contain.
  lemma ManagedIsRecognised(agent: Agent, binary: string, rtk: Option<string>)
    ensures IsManaged(agent, ManagedHook(agent, binary, rtk), binary)
  {
    match agent {
      case Claude =>
        ClaudeHookFields(binary, rtk);
        assert ClaudeArgs(rtk)[0] == Str("hook") && ClaudeArgs(rtk)[1] == Str("claude");
      case Cursor => CursorIsRecognised(binary, rtk);
    }
  }

  lemma ClaudeEntryHooks(binary: string, rtk: Option<string>)
    ensures HooksOf(ManagedEntry(Claude, binary, rtk)) == [ClaudeHook(binary, rtk)]
    ensures Member(ManagedEntry(Claude, binary, rtk), "hooks") == Some(Arr([ClaudeHook(binary, rtk)]))
    ensures Member(ManagedEntry(Claude, binary, rtk), "matcher") == Some(Str("Bash"))
  {
  }

  lemma FilterNone(keep: Value -> bool, h: Value)
    requires !keep(h)
    ensures Filter(keep, [h]) == []
  {
  }

  lemma ClaudeEntryGoes(binary: string, rtk: Option<string>, compose: bool)
    ensures KeptGroup(ManagedEntry(Claude, binary, rtk), binary, compose) == None
  {
    ManagedIsRecognised(Claude, binary, rtk);
    ClaudeEntryHooks(binary, rtk);
    FilterNone(Keeper(Claude, binary, compose), ClaudeHook(binary, rtk));
  }

  lemma OneGroup(group: Value, binary: string, compose: bool)
    ensures KeptGroup(group, binary, compose) == None ==> KeptGroups([group], binary, compose) == []
    ensures Flattened([group]) == HooksOf(group)
  {
    assert [group][1..] == [];
    assert HooksOf(group) + [] == HooksOf(group);
  }

  lemma ManagedEntryGoes(agent: Agent, binary: string, rtk: Option<string>, compose: bool)
    ensures Retained(agent, [ManagedEntry(agent, binary, rtk)], binary, compose) == []
    ensures Hooks(agent, [ManagedEntry(agent, binary, rtk)]) == [ManagedHook(agent, binary, rtk)]
  {
    match agent {
      case Claude =>
        ClaudeEntryGoes(binary, rtk, compose);
        ClaudeEntryHooks(binary, rtk);
        OneGroup(ManagedEntry(Claude, binary, rtk), binary, compose);
      case Cursor =>
        ManagedIsRecognised(Cursor, binary, rtk);
        FilterNone(Keeper(Cursor, binary, compose), ManagedHook(Cursor, binary, rtk));
    }
  }
}

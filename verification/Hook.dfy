// The host hook: what becomes of a command, whatever the outside rewriter answers.
module Hook {
  import opened Wrappers
  import opened Json
  import opened Classify
  import opened Parse
  import opened Analyses
  import opened Insertion
  import opened Rewriting

  const MAX_HOOK_INPUT := 128 * 1024
  const FLOOR_MS := 600_000

  datatype Host = Claude | Cursor

  datatype RtkDecision = Preserve | Ask | Deny | Replace(command: string, ask: bool)

  // rtk is None when RTK is disabled or has no path; binary is None when the path of
  // the executable is not UTF-8; digest stands for the hashed owner.
  datatype Options = Options(host: Host, binary: Option<string>, shell: Shell, denyBackground: bool,
                             rtk: Option<RtkDecision>, digest: string -> string)

  datatype HookError = AnalysisError(failure: Failure) | BinaryNotUtf8

  // What is decided for a command: refuse it, or run some text with this many
  // governed segments.
  datatype Decision = Refuse(reason: string) | RunText(command: string, heavy: nat, ask: bool)

  datatype Answer = PassThrough | Denial(reason: string) | Update(input: Fields, ask: bool)

  // ---- decision ----------------------------------------------------------------------

  // What RTK makes of a command: refused, or a text to go on with.
  datatype Consulted = Denied | Candidate(command: string, ask: bool)

  function Consult(sh: Shell, original: string, rtk: Option<RtkDecision>): Result<Consulted, Failure> {
    match rtk
    case Some(Replace(command, ask)) =>
      (match Preserves(sh, original, command)
       case Err(e) => Err(e)
       case Ok(same) => Ok(if same then Candidate(command, ask) else Candidate(original, false)))
    case Some(Deny) => Ok(Denied)
    case _ => Ok(Candidate(original, false))
  }

  function Text(r: Outcome, candidate: string): string {
    if r.changed then r.command else candidate
  }

  function Final(r: Outcome, candidate: string, ask: bool): Decision {
    if r.denied then Refuse(match r.reason case Some(why) => why case None => "unsafe heavy command")
    else RunText(Text(r, candidate), r.heavy, ask)
  }

  // Rewrite the candidate; a candidate that hides heavy work is replaced by the original.
  function Settle(o: Options, original: string, originalHeavy: nat, candidate: string, ask: bool, binary: string,
                  owner: string):
      Result<Decision, HookError> {
    match Rewritten(o.shell, candidate, binary, owner, o.denyBackground)
    case Err(e) => Err(AnalysisError(e))
    case Ok(r) =>
      if originalHeavy > 0 && r.heavy == 0 && !r.denied then
        (match Rewritten(o.shell, original, binary, owner, o.denyBackground)
         case Err(e) => Err(AnalysisError(e))
         case Ok(again) => Ok(Final(again, again.command, ask)))
      else Ok(Final(r, candidate, ask))
  }

  function Decide(o: Options, original: string, owner: string): Result<Decision, HookError> {
    match Analyzed(o.shell, original)
    case Err(e) => Err(AnalysisError(e))
    case Ok(a) =>
      match Consult(o.shell, original, o.rtk)
      case Err(e) => Err(AnalysisError(e))
      case Ok(Denied) => Ok(Refuse("RTK denied this command"))
      case Ok(Candidate(candidate, ask)) =>
        match o.binary
        case None => Err(BinaryNotUtf8)
        case Some(binary) => Settle(o, original, HeavyIn(a), candidate, ask, binary, owner)
  }

  // ---- the hook ----------------------------------------------------------------------

  function ToolName(host: Host): string {
    match host case Claude => "Bash" case Cursor => "Shell"
  }

  // The tool input and the command of a payload the hook acts on.
  function Request(host: Host, size: nat, payload: Option<Value>): Option<(Fields, string)> {
    if size > MAX_HOOK_INPUT || payload == None || !payload.value.Obj? then None
    else if AsStr(Member(payload.value, "tool_name")) != Some(ToolName(host)) then None
    else
      match Member(payload.value, "tool_input")
      case Some(Obj(input)) =>
        (match AsStr(Get(input, "command"))
         case Some(original) => if |original| > 64 * 1024 || '\0' in original then None else Some((input, original))
         case None => None)
      case _ => None
  }

  function OwnerOf(root: Value): string {
    match AsStr(Member(root, "session_id"))
    case Some(id) => id
    case None =>
      match AsStr(Member(root, "conversation_id"))
      case Some(id) => id
      case None =>
        match AsStr(Member(root, "tool_use_id"))
        case Some(id) => id
        case None => "anonymous"
  }

  function RaisedTimeout(input: Fields): Fields {
    var current := match AsU64(Get(input, "timeout")) case Some(n) => n case None => 0;
    Put(input, "timeout", Int(if current < FLOOR_MS then FLOOR_MS else current))
  }

  function AnswerFor(host: Host, input: Fields, original: string, d: Decision): Answer {
    match d
    case Refuse(reason) => Denial(reason)
    case RunText(command, heavy, ask) =>
      if command == original && !ask then PassThrough
      else
        var updated := Put(input, "command", Str(command));
        Update(if host == Claude && heavy > 0 then RaisedTimeout(updated) else updated, ask)
  }

  function Handled(o: Options, size: nat, payload: Option<Value>): Result<Answer, HookError> {
    match Request(o.host, size, payload)
    case None => Ok(PassThrough)
    case Some((input, original)) =>
      match Decide(o, original, o.digest(OwnerOf(payload.value)))
      case Err(e) => Err(e)
      case Ok(d) => Ok(AnswerFor(o.host, input, original, d))
  }

  method DecideText(o: Options, original: string, owner: string) returns (r: Result<Decision, HookError>)
    ensures r == Decide(o, original, owner)
  {
    var analysis := Analyze(o.shell, original);
    if analysis.Err? {
      return Err(AnalysisError(analysis.error));
    }
    var ask := false;
    var candidate := original;
    match o.rtk {
      case Some(Replace(command, rtkAsk)) =>
        var same := RewritePreservesStructure(o.shell, original, command);
        if same.Err? {
          return Err(AnalysisError(same.error));
        }
        if same.value {
          candidate := command;
          ask := rtkAsk;
        }
      case Some(Deny) =>
        return Ok(Refuse("RTK denied this command"));
      case _ =>
    }
    if o.binary == None {
      return Err(BinaryNotUtf8);
    }
    r := SettleText(o, original, HeavyIn(analysis.value), candidate, ask, o.binary.value, owner);
  }

  method SettleText(o: Options, original: string, originalHeavy: nat, first: string, ask: bool, binary: string,
                    owner: string)
      returns (r: Result<Decision, HookError>)
    ensures r == Settle(o, original, originalHeavy, first, ask, binary, owner)
  {
    var candidate := first;
    var rewritten := Rewriting.Rewrite(o.shell, candidate, binary, owner, o.denyBackground);
    if rewritten.Err? {
      return Err(AnalysisError(rewritten.error));
    }
    var outcome := rewritten.value;
    if originalHeavy > 0 && outcome.heavy == 0 && !outcome.denied {
      rewritten := Rewriting.Rewrite(o.shell, original, binary, owner, o.denyBackground);
      if rewritten.Err? {
        return Err(AnalysisError(rewritten.error));
      }
      outcome := rewritten.value;
      candidate := outcome.command;
    }
    if outcome.denied {
      return Ok(Refuse(if outcome.reason.Some? then outcome.reason.value else "unsafe heavy command"));
    }
    return Ok(RunText(if outcome.changed then outcome.command else candidate, outcome.heavy, ask));
  }

  method Handle(o: Options, size: nat, payload: Option<Value>) returns (r: Result<Answer, HookError>)
    ensures r == Handled(o, size, payload)
  {
    var request := Request(o.host, size, payload);
    if request == None {
      return Ok(PassThrough);
    }
    var toolInput, original := request.value.0, request.value.1;
    var decided := DecideText(o, original, o.digest(OwnerOf(payload.value)));
    match decided {
      case Err(e) => return Err(e);
      case Ok(Refuse(reason)) => return Ok(Denial(reason));
      case Ok(RunText(command, heavy, ask)) =>
        if command == original && !ask {
          return Ok(PassThrough);
        }
        var updated := Put(toolInput, "command", Str(command));
        if o.host == Claude && heavy > 0 {
          updated := RaisedTimeout(updated);
        }
        return Ok(Update(updated, ask));
    }
  }

  // ---- what the host is told -----------------------------------------------------------

  // What the host reads, with the names it expects.
  function Inner(host: Host, a: Answer): Fields {
    match host
    case Claude =>
      (match a
       case PassThrough => []
       case Denial(reason) =>
         [("hookEventName", Str("PreToolUse")), ("permissionDecision", Str("deny")),
          ("permissionDecisionReason", Str(reason))]
       case Update(input, ask) =>
         [("hookEventName", Str("PreToolUse")), ("updatedInput", Obj(input))]
         + (if !ask then []
            else [("permissionDecision", Str("ask")),
                  ("permissionDecisionReason", Str("RTK requested confirmation"))]))
    case Cursor =>
      match a
      case PassThrough => []
      case Denial(reason) => [("continue", Bool(false)), ("permission", Str("deny")), ("message", Str(reason))]
      case Update(input, _) => [("continue", Bool(true)), ("permission", Str("ask")), ("updated_input", Obj(input))]
  }

  // The JSON on standard output; Claude hears nothing when a command passes through.
  function Response(host: Host, a: Answer): Option<Value> {
    if host == Cursor then Some(Obj(Inner(host, a)))
    else if a.PassThrough? then None
    else Some(Obj([("hookSpecificOutput", Obj(Inner(host, a)))]))
  }

  // The fields a host looks at, the permission field of the response, and the fields of
  // the input to run instead.
  function Looked(host: Host, response: Option<Value>): Fields {
    match response
    case None => []
    case Some(v) =>
      var inner := if host == Claude then Member(v, "hookSpecificOutput") else Some(v);
      if inner.Some? && inner.value.Obj? then inner.value.fields else []
  }

  function PermissionField(host: Host): string {
    match host case Claude => "permissionDecision" case Cursor => "permission"
  }

  function Permission(host: Host, response: Option<Value>): Option<string> {
    AsStr(Get(Looked(host, response), PermissionField(host)))
  }

  function NewInput(host: Host, response: Option<Value>): Option<Value> {
    Get(Looked(host, response), match host case Claude => "updatedInput" case Cursor => "updated_input")
  }

  // What the host makes of a response: a denial, an input to run, or nothing.
  function ReadAnswer(host: Host, response: Option<Value>): Option<Answer> {
    var permission := Permission(host, response);
    if permission == Some("deny") then
      match AsStr(Get(Looked(host, response),
                      match host case Claude => "permissionDecisionReason" case Cursor => "message"))
      case None => None
      case Some(reason) => Some(Denial(reason))
    else
      match NewInput(host, response)
      case None => Some(PassThrough)
      case Some(Obj(input)) => Some(Update(input, permission == Some("ask")))
      case _ => None
  }

  // Lookups in short objects.
  lemma GetOfThree(k1: string, v1: Value, k2: string, v2: Value, k3: string, v3: Value, key: string)
    ensures Get([(k1, v1), (k2, v2), (k3, v3)], key)
         == if k1 == key then Some(v1) else if k2 == key then Some(v2) else if k3 == key then Some(v3) else None
  {
    var fields := [(k1, v1), (k2, v2), (k3, v3)];
    assert fields[1..] == [(k2, v2), (k3, v3)] && fields[1..][1..] == [(k3, v3)] && fields[1..][1..][1..] == [];
  }

  lemma GetOfTwo(k1: string, v1: Value, k2: string, v2: Value, rest: Fields, key: string)
    ensures Get([(k1, v1), (k2, v2)] + rest, key)
         == if k1 == key then Some(v1) else if k2 == key then Some(v2) else Get(rest, key)
  {
    var fields := [(k1, v1), (k2, v2)] + rest;
    assert fields[1..] == [(k2, v2)] + rest && fields[1..][1..] == rest;
  }

  lemma GetOfOne(k: string, v: Value, key: string)
    ensures Get([(k, v)], key) == if k == key then Some(v) else None
  {
    assert [(k, v)][1..] == [];
  }

  lemma Unwrapped(inner: Fields)
    ensures Looked(Claude, Some(Obj([("hookSpecificOutput", Obj(inner))]))) == inner
    ensures Looked(Cursor, Some(Obj(inner))) == inner
  {
    GetOfOne("hookSpecificOutput", Obj(inner), "hookSpecificOutput");
  }

  lemma LooksInside(host: Host, a: Answer)
    ensures Looked(host, Response(host, a)) == Inner(host, a)
  {
    Unwrapped(Inner(host, a));
  }

  lemma ClaudeDenialRead(reason: string)
    ensures Get(Inner(Claude, Denial(reason)), "permissionDecision") == Some(Str("deny"))
    ensures Get(Inner(Claude, Denial(reason)), "permissionDecisionReason") == Some(Str(reason))
  {
    var k1, k2, k3 := "hookEventName", "permissionDecision", "permissionDecisionReason";
    assert |k1| < |k2| < |k3|;
    GetOfThree(k1, Str("PreToolUse"), k2, Str("deny"), k3, Str(reason), k2);
    GetOfThree(k1, Str("PreToolUse"), k2, Str("deny"), k3, Str(reason), k3);
  }

  lemma CursorDenialRead(reason: string)
    ensures Get(Inner(Cursor, Denial(reason)), "permission") == Some(Str("deny"))
    ensures Get(Inner(Cursor, Denial(reason)), "message") == Some(Str(reason))
  {
    var k1, k2, k3 := "continue", "permission", "message";
    assert |k1| < |k2| && |k3| < |k1|;
    GetOfThree(k1, Bool(false), k2, Str("deny"), k3, Str(reason), k2);
    GetOfThree(k1, Bool(false), k2, Str("deny"), k3, Str(reason), k3);
  }

  lemma ClaudeUpdateRead(input: Fields, ask: bool)
    ensures Get(Inner(Claude, Update(input, ask)), "permissionDecision") == if ask then Some(Str("ask")) else None
    ensures Get(Inner(Claude, Update(input, ask)), "updatedInput") == Some(Obj(input))
  {
    var k1, k2, k3, k4 := "hookEventName", "updatedInput", "permissionDecision", "permissionDecisionReason";
    var v3, v4 := Str("ask"), Str("RTK requested confirmation");
    var asking: Fields := if ask then [(k3, v3), (k4, v4)] else [];
    assert |k2| < |k1| < |k3| < |k4|;
    GetOfTwo(k1, Str("PreToolUse"), k2, Obj(input), asking, k3);
    GetOfTwo(k1, Str("PreToolUse"), k2, Obj(input), asking, k2);
    GetOfTwo(k3, v3, k4, v4, [], k3);
    assert ask ==> asking == [(k3, v3), (k4, v4)] + [];
  }

  lemma CursorUpdateRead(input: Fields, ask: bool)
    ensures Get(Inner(Cursor, Update(input, ask)), "permission") == Some(Str("ask"))
    ensures Get(Inner(Cursor, Update(input, ask)), "updated_input") == Some(Obj(input))
  {
    var k1, k2, k3 := "continue", "permission", "updated_input";
    assert |k1| < |k2| < |k3|;
    GetOfThree(k1, Bool(true), k2, Str("ask"), k3, Obj(input), k2);
    GetOfThree(k1, Bool(true), k2, Str("ask"), k3, Obj(input), k3);
  }

  lemma DenialReadBack(host: Host, reason: string)
    ensures Permission(host, Response(host, Denial(reason))) == Some("deny")
    ensures ReadAnswer(host, Response(host, Denial(reason))) == Some(Denial(reason))
  {
    LooksInside(host, Denial(reason));
    if host == Claude {
      ClaudeDenialRead(reason);
    } else {
      CursorDenialRead(reason);
    }
  }

  lemma UpdateReadBack(host: Host, input: Fields, ask: bool)
    ensures Permission(host, Response(host, Update(input, ask))) == if ask || host == Cursor then Some("ask") else None
    ensures ReadAnswer(host, Response(host, Update(input, ask))) == Some(Update(input, ask || host == Cursor))
  {
    assert "ask"[0] != "deny"[0];
    LooksInside(host, Update(input, ask));
    if host == Claude {
      ClaudeUpdateRead(input, ask);
    } else {
      CursorUpdateRead(input, ask);
    }
  }

  // Nothing the hook says ever lifts the host's own approval: the permission is deny on a
  // denial, ask on what Cursor is to run instead and on what RTK wants confirmed, and
  // absent otherwise.
  lemma NeverAllows(host: Host, a: Answer)
    ensures Permission(host, Response(host, a)) ==
            match a
            case PassThrough => None
            case Denial(_) => Some("deny")
            case Update(_, ask) => if ask || host == Cursor then Some("ask") else None
  {
    match a {
      case PassThrough => LooksInside(host, a);
      case Denial(reason) => DenialReadBack(host, reason);
      case Update(input, ask) => UpdateReadBack(host, input, ask);
    }
  }

  // The host reads back the answer; on Cursor every update asks.
  lemma AnswerReadBack(host: Host, a: Answer)
    ensures ReadAnswer(host, Response(host, a))
         == Some(if host == Cursor && a.Update? then Update(a.input, true) else a)
  {
    match a {
      case PassThrough => LooksInside(host, a);
      case Denial(reason) => DenialReadBack(host, reason);
      case Update(input, ask) => UpdateReadBack(host, input, ask);
    }
  }

  // handle, with its output.
  method Serve(o: Options, size: nat, payload: Option<Value>) returns (r: Result<Option<Value>, HookError>)
    ensures match Handled(o, size, payload)
            case Err(e) => r == Err(e)
            case Ok(a) => r == Ok(Response(o.host, a))
  {
    var answer := Handle(o, size, payload);
    match answer {
      case Err(e) => return Err(e);
      case Ok(a) => return Ok(Response(o.host, a));
    }
  }
}

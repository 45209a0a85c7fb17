// The hook on commands without heavy work, and which payloads it acts on at all.
module LightWork {
  import opened Wrappers
  import opened Json
  import opened Classify
  import opened Parse
  import opened Analyses
  import opened Insertion
  import opened Rewriting
  import opened Hook
  import opened Governance

  // ---- commands without heavy work -----------------------------------------------------------

  // The text to go on with: the rewriter's, if it was accepted.
  ghost function Chosen(o: Options, original: string): string {
    if Keeps(o, original) then o.rtk.value.command else original
  }

  ghost predicate Asks(o: Options, original: string) {
    Keeps(o, original) && o.rtk.value.ask
  }

  // An accepted text has no heavy work either.
  lemma ChosenIsLight(o: Options, original: string)
    requires Analyzed(o.shell, original).Ok? && HeavyIn(Analyzed(o.shell, original).value) == 0
    ensures Analyzed(o.shell, Chosen(o, original)).Ok?
    ensures HeavyIn(Analyzed(o.shell, Chosen(o, original)).value) == 0
  {
    if Keeps(o, original) && Chosen(o, original) != original {
      assert SameStructure(original, Analyzed(o.shell, original).value,
                           Chosen(o, original), Analyzed(o.shell, Chosen(o, original)).value);
    }
  }

  // Nothing heavy, nothing to rewrite and nothing to deny.
  lemma LightRewrite(sh: Shell, source: string, binary: string, owner: string, denyBackground: bool)
    requires Analyzed(sh, source).Ok? && HeavyIn(Analyzed(sh, source).value) == 0
    ensures var r := Rewritten(sh, source, binary, owner, denyBackground);
            r.Ok? && !r.value.changed && !r.value.denied && r.value.heavy == 0
  {
    var a := Analyzed(sh, source).value;
    if a.Supported? {
      AnalyzedSpans(sh, source);
      HeavyIsEither(a.segments);
    }
  }

  // For every command that analyses without heavy work, supported or not, and every answer
  // of the rewriter: an error exactly when the rewriter's own text cannot be analysed, or
  // the path of the executable is not UTF-8 and the rewriter did not refuse before; a
  // refusal exactly on the rewriter's; otherwise the rewriter's text if it was accepted,
  // and else the original, with nothing governed.
  lemma LightDecided(o: Options, original: string, owner: string)
    requires Analyzed(o.shell, original).Ok? && HeavyIn(Analyzed(o.shell, original).value) == 0
    ensures Decide(o, original, owner).Err? <==>
              CandidateFails(o, original) || (o.binary == None && o.rtk != Some(Deny))
    ensures Decide(o, original, owner).Ok? && Decide(o, original, owner).value.Refuse? <==> o.rtk == Some(Deny)
    ensures Decide(o, original, owner).Ok? && o.rtk != Some(Deny) ==>
              Decide(o, original, owner) == Ok(RunText(Chosen(o, original), 0, Asks(o, original)))
  {
    ConsultCases(o, original);
    ChosenIsLight(o, original);
    if o.binary.Some? {
      LightRewrite(o.shell, Chosen(o, original), o.binary.value, owner, o.denyBackground);
    }
  }

  // What the host gets for it: nothing at all unless the rewriter refuses, changes the text
  // or asks.
  lemma LightHandled(o: Options, size: nat, payload: Option<Value>, input: Fields, original: string)
    requires Request(o.host, size, payload) == Some((input, original))
    requires Analyzed(o.shell, original).Ok? && HeavyIn(Analyzed(o.shell, original).value) == 0
    ensures Handled(o, size, payload).Err? <==>
              CandidateFails(o, original) || (o.binary == None && o.rtk != Some(Deny))
    ensures Handled(o, size, payload).Ok? ==>
              Handled(o, size, payload).value
              == if o.rtk == Some(Deny) then Denial("RTK denied this command")
                 else if Chosen(o, original) == original && !Asks(o, original) then PassThrough
                 else Update(Put(input, "command", Str(Chosen(o, original))), Asks(o, original))
  {
    LightDecided(o, original, o.digest(OwnerOf(payload.value)));
  }

  // Without a rewriter light commands pass through, whatever else is configured.
  lemma LightPassesThrough(o: Options, size: nat, payload: Option<Value>, input: Fields, original: string)
    requires Request(o.host, size, payload) == Some((input, original)) && o.rtk == None && o.binary.Some?
    requires Analyzed(o.shell, original).Ok? && HeavyIn(Analyzed(o.shell, original).value) == 0
    ensures Handled(o, size, payload) == Ok(PassThrough)
  {
    LightHandled(o, size, payload, input, original);
  }

  // ---- which payloads the hook acts on --------------------------------------------------------

  // A string under a key.
  predicate Says(fields: Fields, key: string, text: string) {
    Get(fields, key) == Some(Str(text))
  }

  // The payload calls the host's shell tool with a command short enough to look at.
  ghost predicate CallsShell(host: Host, size: nat, root: Fields, input: Fields, command: string) {
    && size <= 131072
    && Says(root, "tool_name", match host case Claude => "Bash" case Cursor => "Shell")
    && Get(root, "tool_input") == Some(Obj(input)) && Says(input, "command", command)
    && |command| <= 65536 && forall c :: c in command ==> c != '\0'
  }

  // The hook looks at exactly these; every other payload passes through.
  lemma RequestExactly(host: Host, size: nat, payload: Option<Value>, input: Fields, command: string)
    ensures Request(host, size, payload) == Some((input, command)) <==>
              payload.Some? && payload.value.Obj? && CallsShell(host, size, payload.value.fields, input, command)
  {
  }

  lemma OthersPassThrough(o: Options, size: nat, payload: Option<Value>)
    requires forall input: Fields, command: string ::
               !(payload.Some? && payload.value.Obj?
                 && CallsShell(o.host, size, payload.value.fields, input, command))
    ensures Handled(o, size, payload) == Ok(PassThrough)
  {
    var request := Request(o.host, size, payload);
    if request.Some? {
      RequestExactly(o.host, size, payload, request.value.0, request.value.1);
    }
  }

  ghost predicate NoText(fields: Fields, key: string) {
    forall text: string :: !Says(fields, key, text)
  }

  lemma NoTextExactly(fields: Fields, key: string)
    ensures NoText(fields, key) <==> AsStr(Get(fields, key)) == None
  {
    var v := Get(fields, key);
    if v.Some? && v.value.Str? {
      assert Says(fields, key, v.value.s);
    }
  }

  // The owner is the session, else the conversation, else the tool use, else nobody in
  // particular.
  lemma OwnerExactly(root: Fields, id: string)
    ensures OwnerOf(Obj(root)) == id <==>
              || Says(root, "session_id", id)
              || (NoText(root, "session_id") && Says(root, "conversation_id", id))
              || (NoText(root, "session_id") && NoText(root, "conversation_id") && Says(root, "tool_use_id", id))
              || (NoText(root, "session_id") && NoText(root, "conversation_id") && NoText(root, "tool_use_id")
                  && id == "anonymous")
  {
    NoTextExactly(root, "session_id");
    NoTextExactly(root, "conversation_id");
    NoTextExactly(root, "tool_use_id");
  }
}

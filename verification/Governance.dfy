// No answer of an outside rewriter makes a heavy command run ungoverned.
module Governance {
  import opened Wrappers
  import opened Words
  import opened Paths
  import opened Json
  import opened Classify
  import opened Parse
  import opened Analyses
  import opened Insertion
  import opened Rewriting
  import opened Hook

  function BackgroundHeavy(segments: seq<Segment>): nat {
    if segments == [] then 0
    else (if segments[0].verdict.kind == UnsafeBackgroundHeavy then 1 else 0) + BackgroundHeavy(segments[1..])
  }

  lemma {:induction false} HeavyIsEither(segments: seq<Segment>)
    ensures HeavyCount(segments) == HeavyForeground(segments) + BackgroundHeavy(segments)
    ensures RunsHeavyInBackground(segments) <==> BackgroundHeavy(segments) > 0
  {
    if segments != [] {
      HeavyIsEither(segments[1..]);
      assert forall s :: s in segments <==> s == segments[0] || s in segments[1..];
      if segments[0].verdict.kind == UnsafeBackgroundHeavy {
        assert segments[0] in segments;
      } else if RunsHeavyInBackground(segments[1..]) {
        var s :| s in segments[1..] && s.verdict.kind == UnsafeBackgroundHeavy;
        assert s in segments;
      }
    }
  }

  // Equal kinds segment by segment give equal counts.
  lemma {:induction false} SameKinds(a: seq<Segment>, b: seq<Segment>)
    requires |a| == |b| && forall i :: 0 <= i < |a| ==> a[i].verdict.kind == b[i].verdict.kind
    ensures HeavyForeground(a) == HeavyForeground(b) && BackgroundHeavy(a) == BackgroundHeavy(b)
  {
    if a != [] {
      forall i | 0 <= i < |a[1..]| ensures a[1..][i].verdict.kind == b[1..][i].verdict.kind {
        assert a[i + 1].verdict.kind == b[i + 1].verdict.kind;
      }
      SameKinds(a[1..], b[1..]);
    }
  }

  // The rewriter's text keeps the structure of the original.
  ghost predicate Keeps(o: Options, original: string) {
    o.rtk.Some? && o.rtk.value.Replace? && Preserves(o.shell, original, o.rtk.value.command) == Ok(true)
  }

  // The text a decision starts from is the original or a rewrite that was accepted.
  ghost predicate Accepted(o: Options, original: string, base: string) {
    base == original || (Keeps(o, original) && o.rtk.value.command == base)
  }

  lemma AcceptedCounts(o: Options, original: string, segments: seq<Segment>, base: string)
      returns (b: seq<Segment>)
    requires Analyzed(o.shell, original) == Ok(Supported(segments)) && Accepted(o, original, base)
    ensures Analyzed(o.shell, base) == Ok(Supported(b)) && |b| == |segments|
    ensures HeavyForeground(b) == HeavyForeground(segments) && BackgroundHeavy(b) == BackgroundHeavy(segments)
    ensures base == original ==> b == segments
  {
    if base == original {
      b := segments;
    } else {
      var other := Analyzed(o.shell, base).value;
      assert SameStructure(original, Supported(segments), base, other);
      b := other.segments;
      forall i | 0 <= i < |segments| ensures segments[i].verdict.kind == b[i].verdict.kind {
        assert SameSegment(segments[i], b[i]);
      }
      SameKinds(segments, b);
    }
  }

  // The text is base with the governor's prefix inserted at n places and nothing else.
  ghost predicate GovernedText(sh: Shell, base: string, command: string, prefix: string, n: nat) {
    exists b: seq<Segment> ::
      && Analyzed(sh, base) == Ok(Supported(b))
      && n == |Offsets(b)| == HeavyForeground(b)
      && Unspliced(command, Offsets(b), |prefix|) == Some(base)
      && (Spans(base, b, 0) && command == Governed(base, b, prefix))
  }

  // The rewriter's text cannot be analysed.
  ghost predicate CandidateFails(o: Options, original: string) {
    o.rtk.Some? && o.rtk.value.Replace? && o.rtk.value.command != original
    && Analyzed(o.shell, o.rtk.value.command).Err?
  }

  lemma ConsultCases(o: Options, original: string)
    requires Analyzed(o.shell, original).Ok?
    ensures var c := Consult(o.shell, original, o.rtk);
            && (c.Err? <==> CandidateFails(o, original))
            && (c == Ok(Denied) <==> o.rtk == Some(Deny))
            && (c.Ok? && c.value.Candidate? ==>
                  Accepted(o, original, c.value.command)
                  && (c.value.ask <==> Keeps(o, original) && o.rtk.value.ask))
  {
  }

  // Rewriting an accepted text: denied exactly on heavy background work, and otherwise
  // governed in every heavy segment.
  lemma RewriteAccepted(o: Options, original: string, segments: seq<Segment>, base: string, binary: string,
                        owner: string)
    requires Analyzed(o.shell, original) == Ok(Supported(segments)) && Accepted(o, original, base)
    ensures var r := Rewritten(o.shell, base, binary, owner, o.denyBackground);
            && r.Ok?
            && (r.value.denied <==> o.denyBackground && BackgroundHeavy(segments) > 0)
            && (r.value.denied ==> r.value.reason.Some? && r.value.heavy == HeavyCount(segments))
            && (!r.value.denied ==>
                  && GovernedText(o.shell, base, r.value.command, Prefix(binary, owner), HeavyForeground(segments))
                  && r.value.heavy == HeavyForeground(segments)
                  && r.value.changed == (r.value.heavy > 0))
  {
    var b := AcceptedCounts(o, original, segments, base);
    HeavyIsEither(b);
    HeavyIsEither(segments);
    RewriteIsInsertion(o.shell, base, binary, owner, o.denyBackground, b);
    AnalyzedSpans(o.shell, base);
  }

  // The text a decision is about: the original when nothing heavy runs in the foreground.
  function Settled(original: string, segments: seq<Segment>, candidate: string): string {
    if HeavyForeground(segments) == 0 then original else candidate
  }

  ghost predicate RunsGoverned(o: Options, segments: seq<Segment>, base: string, d: Decision, binary: string,
                               owner: string)
  {
    && d.RunText?
    && d.heavy == HeavyForeground(segments)
    && (o.denyBackground ==> d.heavy == HeavyCount(segments))
    && GovernedText(o.shell, base, d.command, Prefix(binary, owner), d.heavy)
  }

  lemma SettleKept(o: Options, original: string, segments: seq<Segment>, candidate: string, ask: bool, binary: string,
                   owner: string)
    requires Analyzed(o.shell, original) == Ok(Supported(segments)) && HeavyCount(segments) > 0
    requires Accepted(o, original, candidate)
    ensures var d := Settle(o, original, HeavyCount(segments), candidate, ask, binary, owner);
            && d.Ok?
            && (d.value.Refuse? <==> o.denyBackground && RunsHeavyInBackground(segments))
            && (d.value.RunText? ==>
                  RunsGoverned(o, segments, Settled(original, segments, candidate), d.value, binary, owner)
                  && d.value.ask == ask)
  {
    HeavyIsEither(segments);
    RewriteAccepted(o, original, segments, candidate, binary, owner);
    RewriteAccepted(o, original, segments, original, binary, owner);
  }

  function Base(o: Options, original: string, segments: seq<Segment>): string {
    match Consult(o.shell, original, o.rtk)
    case Ok(Candidate(candidate, _)) => Settled(original, segments, candidate)
    case _ => original
  }

  // For a command with heavy work and for every answer of the rewriter: a refusal, or a
  // text governed in every heavy foreground segment. The hook fails exactly when the
  // rewriter's own text cannot be analysed, or the path of the executable is not UTF-8
  // and the rewriter did not refuse before.
  lemma GovernanceKept(o: Options, original: string, segments: seq<Segment>, owner: string)
    requires Analyzed(o.shell, original) == Ok(Supported(segments)) && HeavyCount(segments) > 0
    ensures Decide(o, original, owner).Err? <==>
              CandidateFails(o, original) || (o.binary == None && o.rtk != Some(Deny))
    ensures Decide(o, original, owner).Ok? && Decide(o, original, owner).value.Refuse? <==>
              o.rtk == Some(Deny)
              || (!CandidateFails(o, original) && o.binary.Some? && o.denyBackground && RunsHeavyInBackground(segments))
    ensures Decide(o, original, owner).Ok? && Decide(o, original, owner).value.RunText? ==>
              var run, base := Decide(o, original, owner).value, Base(o, original, segments);
              && o.binary.Some? && Accepted(o, original, base)
              && RunsGoverned(o, segments, base, run, o.binary.value, owner)
              && (run.ask <==> Keeps(o, original) && o.rtk.value.ask)
  {
    ConsultCases(o, original);
    var c := Consult(o.shell, original, o.rtk);
    if c.Ok? && c.value.Candidate? && o.binary.Some? {
      SettleKept(o, original, segments, c.value.command, c.value.ask, o.binary.value, owner);
    }
  }

  // ---- nothing heavy is passed through unchanged -----------------------------------------

  lemma {:induction false} UnsplicedLength(text: string, offsets: seq<nat>, length: nat)
    requires Unspliced(text, offsets, length).Some?
    ensures |text| == |Unspliced(text, offsets, length).value| + |offsets| * length
    decreases |offsets|
  {
    if offsets != [] {
      UnsplicedLength(text[..offsets[0]] + text[offsets[0] + length..], offsets[1..], length);
    }
  }

  // Governed text is longer than its base.
  lemma GovernedTextDiffers(sh: Shell, base: string, command: string, prefix: string, n: nat)
    requires GovernedText(sh, base, command, prefix, n) && n > 0 && prefix != ""
    ensures command != base
  {
    var b: seq<Segment> :| Analyzed(sh, base) == Ok(Supported(b)) && n == |Offsets(b)|
                           && Unspliced(command, Offsets(b), |prefix|) == Some(base);
    UnsplicedLength(command, Offsets(b), |prefix|);
    assert n * |prefix| >= 1;
  }

  // A governed text that parses into the segments written has no heavy segment left, so
  // it is not the original.
  lemma GovernedTextIsNew(o: Options, original: string, segments: seq<Segment>, base: string, b: seq<Segment>,
                          command: string, again: seq<Segment>, binary: string, owner: string)
    requires Analyzed(o.shell, original) == Ok(Supported(segments)) && HeavyForeground(segments) > 0
    requires Analyzed(o.shell, base) == Ok(Supported(b)) && IsGovernor(binary) && HeavyAligned(b)
    requires Analyzed(o.shell, command) == Ok(Supported(again)) && Reparsed(o.shell, b, Prefix(binary, owner), again)
    ensures command != original
  {
    AnalyzedSegments(o.shell, base);
    AnalyzedSegments(o.shell, command);
    AgainNothingHeavy(o.shell, base, b, command, again, binary, owner);
    NothingHeavy(again, "");
  }

  // The text with its prefixes parses into the segments it was made of.
  ghost predicate ParsesAsWritten(sh: Shell, base: string, command: string, binary: string, owner: string) {
    exists b: seq<Segment>, again: seq<Segment> ::
      Analyzed(sh, base) == Ok(Supported(b)) && HeavyAligned(b)
      && Analyzed(sh, command) == Ok(Supported(again)) && Reparsed(sh, b, Prefix(binary, owner), again)
  }

  // A command with heavy foreground work is left as it is only when it already is the
  // rewriter's accepted text with the governor's prefix in every heavy segment.
  lemma PassedThroughIsGoverned(o: Options, size: nat, payload: Option<Value>, input: Fields, original: string,
                                segments: seq<Segment>)
    requires Request(o.host, size, payload) == Some((input, original))
    requires Analyzed(o.shell, original) == Ok(Supported(segments)) && HeavyForeground(segments) > 0
    ensures Handled(o, size, payload) == Ok(PassThrough) ==>
              && o.binary.Some? && Keeps(o, original) && Base(o, original, segments) != original
              && GovernedText(o.shell, Base(o, original, segments), original,
                              Prefix(o.binary.value, o.digest(OwnerOf(payload.value))), HeavyForeground(segments))
  {
    var owner := o.digest(OwnerOf(payload.value));
    var base, d := Base(o, original, segments), Decide(o, original, owner);
    HeavyIsEither(segments);
    GovernanceKept(o, original, segments, owner);
    if d.Ok? && d.value.RunText? && base == original {
      GovernedTextDiffers(o.shell, base, d.value.command, Prefix(o.binary.value, owner), d.value.heavy);
    }
  }

  // So it is never left as it is, provided a text written with the prefixes also parses
  // as written.
  lemma HeavyIsNotPassedThrough(o: Options, size: nat, payload: Option<Value>, input: Fields, original: string,
                                segments: seq<Segment>)
    requires Request(o.host, size, payload) == Some((input, original))
    requires Analyzed(o.shell, original) == Ok(Supported(segments)) && HeavyForeground(segments) > 0
    requires var base := Base(o, original, segments);
             o.binary.Some? && base != original ==>
               IsGovernor(o.binary.value)
               && forall command, owner :: GovernedText(o.shell, base, command, Prefix(o.binary.value, owner),
                                                        HeavyForeground(segments)) ==>
                    ParsesAsWritten(o.shell, base, command, o.binary.value, owner)
    ensures Handled(o, size, payload) != Ok(PassThrough)
  {
    PassedThroughIsGoverned(o, size, payload, input, original, segments);
    if Handled(o, size, payload) == Ok(PassThrough) {
      var base, binary, owner := Base(o, original, segments), o.binary.value, o.digest(OwnerOf(payload.value));
      var b: seq<Segment>, again: seq<Segment> :|
        Analyzed(o.shell, base) == Ok(Supported(b)) && HeavyAligned(b)
        && Analyzed(o.shell, original) == Ok(Supported(again))
        && Reparsed(o.shell, b, Prefix(binary, owner), again);
      GovernedTextIsNew(o, original, segments, base, b, original, again, binary, owner);
      assert false;
    }
  }

  // ---- the answer to the host --------------------------------------------------------------

  function Raised(before: Option<nat>): nat {
    if before.Some? && before.value > 600_000 then before.value else 600_000
  }

  lemma RaisedOnly(input: Fields)
    ensures AsU64(Get(RaisedTimeout(input), "timeout")) == Some(Raised(AsU64(Get(input, "timeout"))))
    ensures SameBut(input, RaisedTimeout(input), "timeout", "timeout")
  {
    var current := match AsU64(Get(input, "timeout")) case Some(n) => n case None => 0;
    PutOnly(input, "timeout", Int(if current < FLOOR_MS then FLOOR_MS else current));
  }

  // The updated input is the tool input with its command replaced; only a Claude
  // timeout may be raised besides, and every other field keeps its place and value.
  lemma UpdatedInput(host: Host, input: Fields, original: string, command: string, heavy: nat, ask: bool)
    requires AnswerFor(host, input, original, RunText(command, heavy, ask)).Update?
    ensures var updated := AnswerFor(host, input, original, RunText(command, heavy, ask)).input;
            && Get(updated, "command") == Some(Str(command))
            && AnswerFor(host, input, original, RunText(command, heavy, ask)).ask == ask
            && SameBut(input, updated, "command", "timeout")
            && (if host == Claude && heavy > 0
                then AsU64(Get(updated, "timeout")) == Some(Raised(AsU64(Get(input, "timeout"))))
                else Get(updated, "timeout") == Get(input, "timeout"))
  {
    var first := Put(input, "command", Str(command));
    PutOnly(input, "command", Str(command));
    KeysDiffer();
    assert Get(first, "timeout") == Get(input, "timeout");
    if host == Claude && heavy > 0 {
      RaisedOnly(first);
      SameButBoth(input, first, RaisedTimeout(first), "command", "timeout");
    }
  }

  lemma KeysDiffer()
    ensures "command" != "timeout"
  {
    assert "command"[0] != "timeout"[0];
  }

  lemma DenialReason(sh: Shell, source: string, binary: string, owner: string, denyBackground: bool)
    ensures var r := Rewritten(sh, source, binary, owner, denyBackground);
            r.Ok? && r.value.denied ==> r.value.reason == Some(FOREGROUND)
  {
  }

  lemma SettleReason(o: Options, original: string, originalHeavy: nat, candidate: string, ask: bool, binary: string,
                     owner: string)
    ensures var d := Settle(o, original, originalHeavy, candidate, ask, binary, owner);
            d.Ok? && d.value.Refuse? ==> d.value.reason == FOREGROUND
  {
    DenialReason(o.shell, candidate, binary, owner, o.denyBackground);
    DenialReason(o.shell, original, binary, owner, o.denyBackground);
  }

  // Why a command is refused: the rewriter said so, or it works in the background.
  lemma RefusalReason(o: Options, original: string, owner: string)
    requires Decide(o, original, owner).Ok? && Decide(o, original, owner).value.Refuse?
    ensures Decide(o, original, owner).value.reason
         == if o.rtk == Some(Deny) then "RTK denied this command" else "heavy workloads must run in the foreground"
  {
    ConsultCases(o, original);
    var c, a := Consult(o.shell, original, o.rtk), Analyzed(o.shell, original).value;
    if c.value.Candidate? {
      SettleReason(o, original, HeavyIn(a), c.value.command, c.value.ask, o.binary.value, owner);
    }
  }

  // The answer to a command with heavy work: an error or a denial, as decided ...
  lemma HeavyAnswered(o: Options, size: nat, payload: Option<Value>, input: Fields, original: string,
                      segments: seq<Segment>)
    requires Request(o.host, size, payload) == Some((input, original))
    requires Analyzed(o.shell, original) == Ok(Supported(segments)) && HeavyCount(segments) > 0
    ensures Handled(o, size, payload).Err? <==>
              CandidateFails(o, original) || (o.binary == None && o.rtk != Some(Deny))
    ensures Handled(o, size, payload).Ok? && Handled(o, size, payload).value.Denial? <==>
              o.rtk == Some(Deny)
              || (!CandidateFails(o, original) && o.binary.Some? && o.denyBackground && RunsHeavyInBackground(segments))
  {
    GovernanceKept(o, original, segments, o.digest(OwnerOf(payload.value)));
  }

  lemma HandledFollows(o: Options, size: nat, payload: Option<Value>, input: Fields, original: string)
    requires Request(o.host, size, payload) == Some((input, original))
    requires Handled(o, size, payload).Ok? && Handled(o, size, payload).value.Update?
    ensures var d := Decide(o, original, o.digest(OwnerOf(payload.value)));
            d.Ok? && d.value.RunText? && Handled(o, size, payload) == Ok(AnswerFor(o.host, input, original, d.value))
  {
  }

  // ... or else a governed text in place of the command, with Claude's timeout raised when
  // something heavy runs in the foreground.
  lemma HeavyUpdated(o: Options, size: nat, payload: Option<Value>, input: Fields, original: string,
                     segments: seq<Segment>) returns (d: Decision)
    requires Request(o.host, size, payload) == Some((input, original))
    requires Analyzed(o.shell, original) == Ok(Supported(segments)) && HeavyCount(segments) > 0
    requires Handled(o, size, payload).Ok? && Handled(o, size, payload).value.Update?
    ensures var base := Base(o, original, segments);
            && o.binary.Some? && Accepted(o, original, base)
            && RunsGoverned(o, segments, base, d, o.binary.value, o.digest(OwnerOf(payload.value)))
    ensures var answer := Handled(o, size, payload).value;
            && Get(answer.input, "command") == Some(Str(d.command))
            && (answer.ask <==> Keeps(o, original) && o.rtk.value.ask)
            && SameBut(input, answer.input, "command", "timeout")
            && (if o.host == Claude && HeavyForeground(segments) > 0
                then AsU64(Get(answer.input, "timeout")) == Some(Raised(AsU64(Get(input, "timeout"))))
                else Get(answer.input, "timeout") == Get(input, "timeout"))
  {
    var owner := o.digest(OwnerOf(payload.value));
    GovernanceKept(o, original, segments, owner);
    HandledFollows(o, size, payload, input, original);
    d := Decide(o, original, owner).value;
    UpdatedInput(o.host, input, original, d.command, d.heavy, d.ask);
  }
}

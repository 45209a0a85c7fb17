// rewrite: every heavy command of a shell text runs under the governor.
module Rewriting {
  import opened Wrappers
  import opened Words
  import opened Paths
  import opened Classify
  import opened Parse
  import opened Analyses
  import opened Insertion

  datatype Outcome = Outcome(command: string, changed: bool, denied: bool, heavy: nat, reason: Option<string>)

  const FOREGROUND := "heavy workloads must run in the foreground"

  predicate RunsHeavyInBackground(segments: seq<Segment>) {
    exists s :: s in segments && s.verdict.kind == UnsafeBackgroundHeavy
  }

  // Segments running a heavy command in the foreground.
  function HeavyForeground(segments: seq<Segment>): nat {
    if segments == [] then 0
    else (if segments[0].verdict.kind == Heavy then 1 else 0) + HeavyForeground(segments[1..])
  }

  // The text with every heavy segment prefixed and the rest untouched.
  function Governed(source: string, segments: seq<Segment>, prefix: string): string
    requires Spans(source, segments, 0)
  {
    FrameRebuilds(source, segments, 0);
    Weave(Frame(source, segments, 0).value, NewTexts(segments, prefix))
  }

  function OutcomeOf(source: string, segments: seq<Segment>, prefix: string, denyBackground: bool): Outcome
    requires Spans(source, segments, 0)
  {
    if denyBackground && RunsHeavyInBackground(segments) then
      Outcome(source, false, true, HeavyCount(segments), Some(FOREGROUND))
    else
      Outcome(Governed(source, segments, prefix), HeavyForeground(segments) > 0, false, HeavyForeground(segments), None)
  }

  lemma AnalyzedSpans(sh: Shell, source: string)
    ensures Analyzed(sh, source).Ok? && Analyzed(sh, source).value.Supported? ==>
              Spans(source, Analyzed(sh, source).value.segments, 0)
  {
    AnalyzedSegments(sh, source);
    if Analyzed(sh, source).Ok? && Analyzed(sh, source).value.Supported? {
      TilesSpan(sh, source, Analyzed(sh, source).value.segments, 0);
    }
  }

  function Rewritten(sh: Shell, source: string, binary: string, owner: string, denyBackground: bool):
      Result<Outcome, Failure>
  {
    match Analyzed(sh, source)
    case Err(e) => Err(e)
    case Ok(Unsupported(reason)) => Ok(Outcome(source, false, false, 0, Some(reason)))
    case Ok(Supported(segments)) =>
      AnalyzedSpans(sh, source);
      Ok(OutcomeOf(source, segments, Prefix(binary, owner), denyBackground))
  }

  // A verdict is heavy only on a command that is not wrapped.
  lemma HeavyIsUnwrapped(sh: Shell, source: string, segments: seq<Segment>, s: Segment)
    requires Tiles(sh, source, segments) && s in segments
    ensures IsWrapped(s) <==> s.verdict.kind == Heavy
  {
    assert IsSegment(sh, source, s);
  }

  lemma {:induction false} OffsetsCountHeavy(segments: seq<Segment>)
    requires forall s :: s in segments ==> (IsWrapped(s) <==> s.verdict.kind == Heavy)
    ensures |Offsets(segments)| == HeavyForeground(segments)
  {
    if segments != [] {
      assert segments[0] in segments;
      OffsetsCountHeavy(segments[1..]);
    }
  }

  method Rewrite(sh: Shell, source: string, binary: string, owner: string, denyBackground: bool)
      returns (r: Result<Outcome, Failure>)
    ensures r == Rewritten(sh, source, binary, owner, denyBackground)
  {
    var analyzed := Analyze(sh, source);
    if analyzed.Err? {
      return Err(analyzed.error);
    }
    if analyzed.value.Unsupported? {
      return Ok(Outcome(source, false, false, 0, Some(analyzed.value.reason)));
    }
    var segments := analyzed.value.segments;
    if denyBackground && RunsHeavyInBackground(segments) {
      return Ok(Outcome(source, false, true, HeavyCount(segments), Some(FOREGROUND)));
    }
    var prefix := Prefix(binary, owner);
    var offsets := Dedup(SortDescending(Offsets(segments)));
    RewriteProof(sh, source, segments, prefix);
    var command := InsertAll(source, offsets, prefix, Offsets(segments));
    return Ok(Outcome(command, offsets != [], false, |offsets|, None));
  }

  // Sorting and dedup lose no insertion, and the insertions build the governed text.
  lemma RewriteProof(sh: Shell, source: string, segments: seq<Segment>, prefix: string)
    requires Analyzed(sh, source) == Ok(Supported(segments))
    ensures Ascending(Offsets(segments), 0, |source|) && Spans(source, segments, 0)
    ensures Dedup(SortDescending(Offsets(segments))) == Reversed(Offsets(segments))
    ensures |Offsets(segments)| == HeavyForeground(segments)
    ensures Spliced(source, Offsets(segments), prefix, 0) == Governed(source, segments, prefix)
  {
    AnalyzedSegments(sh, source);
    AnalyzedSpans(sh, source);
    OffsetsAscend(source, segments, 0);
    OffsetsReversed(Offsets(segments), 0, |source|);
    SplicedIsWoven(source, segments, 0, prefix);
    forall s | s in segments ensures IsWrapped(s) <==> s.verdict.kind == Heavy {
      HeavyIsUnwrapped(sh, source, segments, s);
    }
    OffsetsCountHeavy(segments);
  }

  // ---- what the rewritten text is ------------------------------------------------------

  // Taking the prefixes out again gives the source back.
  lemma RewriteIsInsertion(sh: Shell, source: string, binary: string, owner: string, denyBackground: bool,
                           segments: seq<Segment>)
    requires Analyzed(sh, source) == Ok(Supported(segments))
    ensures var r := Rewritten(sh, source, binary, owner, denyBackground).value;
            if r.denied then r.command == source && !r.changed
            else Unspliced(r.command, Offsets(segments), |Prefix(binary, owner)|) == Some(source)
                 && |Offsets(segments)| == r.heavy == HeavyForeground(segments)
                 && r.changed == (r.heavy > 0)
  {
    RewriteProof(sh, source, segments, Prefix(binary, owner));
    UnsplicedSource(source, Offsets(segments), Prefix(binary, owner));
  }

  // Outside heavy segments not a byte changes: frame and light segments are those of
  // the source.
  lemma RewriteKeepsTheRest(sh: Shell, source: string, binary: string, owner: string, denyBackground: bool,
                            segments: seq<Segment>)
    requires Analyzed(sh, source) == Ok(Supported(segments))
    ensures var r := Rewritten(sh, source, binary, owner, denyBackground).value;
            var frame := Frame(source, segments, 0);
            && frame.Some? && |frame.value| == |segments| + 1
            && source == Weave(frame.value, Texts(segments))
            && (!r.denied ==> r.command == Weave(frame.value, NewTexts(segments, Prefix(binary, owner))))
    ensures forall s :: s in segments && s.verdict.kind != Heavy ==> NewText(s, Prefix(binary, owner)) == s.text
  {
    AnalyzedSpans(sh, source);
    FrameRebuilds(source, segments, 0);
    assert source[0..] == source;
  }

  // ---- what the shell runs ---------------------------------------------------------------

  // The words before the executable of a segment, all of them assignments.
  ghost predicate StartsAfterAssignments(s: Segment, before: seq<string>) {
    && s.start <= s.at <= s.start + |s.text|
    && Run(Start, s.text[..s.at - s.start]) == Lexer(Gap, before, "")
    && AllAssignments(before)
  }

  // The words of a prefixed segment: its assignments, the governor, its other words.
  lemma ArgvExact(s: Segment, before: seq<string>, binary: string, owner: string)
    requires IsWrapped(s) && StartsAfterAssignments(s, before)
    ensures var rest := Split(s.text[s.at - s.start..]);
            && Split(s.text) == After(before, rest)
            && Split(NewText(s, Prefix(binary, owner))) == After(before + GovernorWords(binary, owner), rest)
  {
    var head, tail := s.text[..s.at - s.start], s.text[s.at - s.start..];
    var prefix := Prefix(binary, owner);
    assert s.text == head + tail;
    SplitAtGap(head, tail);
    assert NewText(s, prefix) == head + (prefix + tail);
    SplitAtGap(head, prefix + tail);
    PrefixWords(binary, owner, tail);
    AfterTwice(before, GovernorWords(binary, owner), Split(tail));
  }

  // A prefixed segment is recognised as governed under every rule set and table,
  // exactly when the binary is called agent-gov and is not itself an assignment.
  lemma PrefixedIsRecognised(s: Segment, before: seq<string>, binary: string, owner: string, rules: seq<Rule>,
                             tables: Tables)
    requires IsWrapped(s) && StartsAfterAssignments(s, before) && Split(s.text).Some?
    ensures var words := SplitOrEmpty(NewText(s, Prefix(binary, owner)));
            Classified(words, rules, tables).wrapped <==> !IsAssignment(binary) && Basename(binary) == "agent-gov"
  {
    ArgvExact(s, before, binary, owner);
    var rest := Split(s.text[s.at - s.start..]).value;
    var tail := ["heavy", "--owner", SafeOwner(owner), "--"] + rest;
    assert before + GovernorWords(binary, owner) + rest == before + [binary, "run", "--pool"] + tail;
    GovernedIsRecognised(before, binary, tail);
  }

  // ---- rewriting twice ---------------------------------------------------------------------

  predicate IsGovernor(binary: string) {
    !IsAssignment(binary) && Basename(binary) == "agent-gov"
  }

  // The path of an installed governor is absolute, so it never reads as an assignment.
  lemma InstalledIsGovernor(binary: string)
    requires binary != "" && binary[0] == '/'
    ensures IsGovernor(binary) <==> FileName(binary) == Some("agent-gov")
  {
    PathIsNoAssignment(binary);
    SlashInside(binary);
  }

  lemma SlashInside(binary: string)
    requires binary != "" && binary[0] == '/'
    ensures binary != "agent-gov"
  {
    assert "agent-gov"[0] != '/';
  }

  // The rewritten text parses into the segments that were written.
  ghost predicate Reparsed(sh: Shell, segments: seq<Segment>, prefix: string, again: seq<Segment>) {
    |again| == |segments|
    && forall i :: 0 <= i < |again| ==>
         again[i].text == NewText(segments[i], prefix) && again[i].background == segments[i].background
  }

  ghost predicate HeavyAligned(segments: seq<Segment>) {
    forall s :: s in segments && s.verdict.kind == Heavy ==>
      Split(s.text).Some? && exists before :: StartsAfterAssignments(s, before)
  }

  lemma VerdictAgain(sh: Shell, s: Segment, binary: string, owner: string)
    requires IsWrapped(s) && IsGovernor(binary) && Split(s.text).Some?
    requires exists before :: StartsAfterAssignments(s, before)
    ensures Verdict(sh, NewText(s, Prefix(binary, owner)), s.background).kind == Light
  {
    var before :| StartsAfterAssignments(s, before);
    PrefixedIsRecognised(s, before, binary, owner, sh.rules, sh.tables);
  }

  lemma {:induction false} NothingHeavy(segments: seq<Segment>, prefix: string)
    requires forall s :: s in segments ==> s.verdict.kind != Heavy
    ensures HeavyForeground(segments) == 0 && NewTexts(segments, prefix) == Texts(segments)
  {
    if segments != [] {
      assert segments[0] in segments;
      NothingHeavy(segments[1..], prefix);
    }
  }

  // No segment of the rewritten text is heavy, and none became heavy in the background.
  lemma AgainNothingHeavy(sh: Shell, source: string, segments: seq<Segment>, text: string, again: seq<Segment>,
                          binary: string, owner: string)
    requires Tiles(sh, source, segments) && Tiles(sh, text, again)
    requires IsGovernor(binary) && HeavyAligned(segments)
    requires Reparsed(sh, segments, Prefix(binary, owner), again)
    ensures forall i :: 0 <= i < |again| ==>
              again[i].verdict.kind != Heavy
              && (again[i].verdict.kind == UnsafeBackgroundHeavy ==> segments[i].verdict.kind == UnsafeBackgroundHeavy)
  {
    forall i | 0 <= i < |again|
      ensures again[i].verdict.kind != Heavy
              && (again[i].verdict.kind == UnsafeBackgroundHeavy ==> segments[i].verdict.kind == UnsafeBackgroundHeavy)
    {
      var s := segments[i];
      assert s in segments && again[i] in again;
      assert IsSegment(sh, source, s) && IsSegment(sh, text, again[i]);
      if s.verdict.kind == Heavy {
        VerdictAgain(sh, s, binary, owner);
      }
    }
  }

  // A second rewrite, for any owner, changes nothing; it fails only when the rewritten
  // text cannot be analysed at all.
  lemma RewriteIdempotent(sh: Shell, source: string, segments: seq<Segment>, binary: string, owner: string,
                          owner2: string, denyBackground: bool)
    requires Analyzed(sh, source) == Ok(Supported(segments)) && IsGovernor(binary) && HeavyAligned(segments)
    requires var again := Analyzed(sh, Rewritten(sh, source, binary, owner, denyBackground).value.command);
             && Rewritten(sh, source, binary, owner, denyBackground).value.changed
             && again.Ok? && again.value.Supported? ==>
               Reparsed(sh, segments, Prefix(binary, owner), again.value.segments)
    ensures var first := Rewritten(sh, source, binary, owner, denyBackground).value;
            var second := Rewritten(sh, first.command, binary, owner2, denyBackground);
            && (second.Ok? <==> Analyzed(sh, first.command).Ok?)
            && (second.Ok? ==>
                  !second.value.changed && second.value.command == first.command && second.value.denied == first.denied)
  {
    var first := Rewritten(sh, source, binary, owner, denyBackground).value;
    AnalyzedSegments(sh, source);
    if first.changed {
      var analyzed := Analyzed(sh, first.command);
      if analyzed.Ok? && analyzed.value.Supported? {
        var again := analyzed.value.segments;
        AnalyzedSegments(sh, first.command);
        AgainNothingHeavy(sh, source, segments, first.command, again, binary, owner);
        SecondRewrite(sh, first.command, again, binary, owner2, denyBackground);
      }
    } else if first.denied {
      assert first.command == source;
    } else {
      NoHeavyForeground(segments);
      SecondRewrite(sh, source, segments, binary, owner, denyBackground);
      SecondRewrite(sh, source, segments, binary, owner2, denyBackground);
    }
  }

  lemma {:induction false} NoHeavyForeground(segments: seq<Segment>)
    requires HeavyForeground(segments) == 0
    ensures forall s :: s in segments ==> s.verdict.kind != Heavy
  {
    if segments != [] {
      NoHeavyForeground(segments[1..]);
      assert segments == [segments[0]] + segments[1..];
    }
  }

  lemma SecondRewrite(sh: Shell, text: string, segments: seq<Segment>, binary: string, owner: string,
                      denyBackground: bool)
    requires Analyzed(sh, text) == Ok(Supported(segments))
    requires forall s :: s in segments ==> s.verdict.kind != Heavy
    ensures var r := Rewritten(sh, text, binary, owner, denyBackground).value;
            !r.changed && r.command == text && r.denied == (denyBackground && RunsHeavyInBackground(segments))
  {
    AnalyzedSpans(sh, text);
    FrameRebuilds(text, segments, 0);
    NothingHeavy(segments, Prefix(binary, owner));
    assert text[0..] == text;
  }
}

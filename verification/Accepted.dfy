// Which texts of an outside rewriter are accepted: commands may gain a word, and nothing
// around them may change.
module AcceptedRewrites {
  import opened Wrappers
  import opened Words
  import opened Paths
  import opened Classify
  import opened Parse
  import opened Analyses

  // The text in front of command i, or behind the last one.
  function Gap(source: string, segments: seq<Segment>, i: nat): string
    requires i <= |segments| && Fits(source, segments)
  {
    source[if i == 0 then 0 else segments[i - 1].end..if i == |segments| then |source| else segments[i].start]
  }

  // The commands lie in the text one behind the other.
  ghost predicate Fits(source: string, segments: seq<Segment>) {
    && (forall i :: 0 <= i < |segments| ==> segments[i].start <= segments[i].end <= |source|)
    && (forall i :: 0 < i < |segments| ==> segments[i - 1].end <= segments[i].start)
  }

  lemma TilesFit(sh: Shell, source: string, segments: seq<Segment>)
    requires Tiles(sh, source, segments)
    ensures Fits(source, segments)
  {
    forall i | 0 <= i < |segments| ensures segments[i].start <= segments[i].end <= |source| {
      assert segments[i] in segments && IsSegment(sh, source, segments[i]);
    }
  }

  // From command k on.
  lemma {:induction false} FramePieces(source: string, segments: seq<Segment>, k: nat)
    requires k <= |segments| && Fits(source, segments)
    ensures var frame := Frame(source, segments[k..], if k == 0 then 0 else segments[k - 1].end);
            && frame.Some? && |frame.value| == |segments| - k + 1
            && forall i :: k <= i <= |segments| ==> frame.value[i - k] == Gap(source, segments, i)
    decreases |segments| - k
  {
    if k < |segments| {
      FramePieces(source, segments, k + 1);
      assert segments[k..][1..] == segments[k + 1..] && segments[k..][0] == segments[k];
    } else {
      assert segments[k..] == [];
    }
  }

  // Equal frames are equal gaps.
  lemma SameFrameExactly(source: string, a: seq<Segment>, other: string, b: seq<Segment>)
    requires Fits(source, a) && Fits(other, b) && |a| == |b|
    ensures Frame(source, a, 0) == Frame(other, b, 0)
       <==> forall i :: 0 <= i <= |a| ==> Gap(source, a, i) == Gap(other, b, i)
  {
    FramePieces(source, a, 0);
    FramePieces(other, b, 0);
    assert a[0..] == a && b[0..] == b;
    var f, g := Frame(source, a, 0).value, Frame(other, b, 0).value;
    assert forall i :: 0 <= i <= |a| ==> f[i - 0] == Gap(source, a, i) && g[i - 0] == Gap(other, b, i);
    if forall i :: 0 <= i <= |a| ==> Gap(source, a, i) == Gap(other, b, i) {
      forall i | 0 <= i < |f| ensures f[i] == g[i] {
        assert Gap(source, a, i) == Gap(other, b, i);
      }
      assert f == g;
    }
  }

  // The words of a command, split behind the assignments, with one more: a path to rtk.
  ghost predicate GainsWord(words: seq<string>, after: string, assignments: seq<string>, token: string,
                            rest: seq<string>)
  {
    && words == assignments + rest && Split(after) == Some(assignments + [token] + rest)
    && (forall w :: w in assignments ==> IsAssignment(w)) && (rest != [] ==> !IsAssignment(rest[0]))
    && FileName(token) == Some("rtk")
  }

  ghost predicate GainsRtk(before: string, after: string) {
    && Split(before).Some?
    && exists assignments: seq<string>, token: string, rest: seq<string> ::
         GainsWord(Split(before).value, after, assignments, token, rest)
  }

  lemma GainsIf(before: string, after: string)
    requires GainsRtk(before, after)
    ensures AddsOnlyRtk(before, after)
  {
    var assignments: seq<string>, token: string, rest: seq<string> :|
      GainsWord(Split(before).value, after, assignments, token, rest);
    assert Parts(Split(before).value, assignments, rest);
    AddsOnlyRtkExactly(before, after, assignments, rest);
  }

  lemma GainsOnlyIf(before: string, after: string)
    requires AddsOnlyRtk(before, after)
    ensures GainsRtk(before, after)
  {
    var words := Split(before).value;
    LeadingAssignments(words);
    var assignments, rest := Leading(words), Drop(IsAssignment, words);
    AddsOnlyRtkExactly(before, after, assignments, rest);
    var token :| FileName(token) == Some("rtk") && Split(after) == Some(assignments + [token] + rest);
    assert GainsWord(words, after, assignments, token, rest);
  }

  // One command of the original and of the rewrite.
  ghost predicate OnlyGains(before: Segment, after: Segment) {
    && (before.background <==> after.background) && before.verdict.kind == after.verdict.kind
    && (forall c :: c in before.text || c in after.text ==> c != '<' && c != '>')
    && GainsRtk(before.text, after.text)
  }

  lemma OnlyGainsExactly(before: Segment, after: Segment)
    ensures SameSegment(before, after) <==> OnlyGains(before, after)
  {
    if AddsOnlyRtk(before.text, after.text) {
      GainsOnlyIf(before.text, after.text);
    }
    if GainsRtk(before.text, after.text) {
      GainsIf(before.text, after.text);
    }
  }

  lemma {:induction false} SameCount(a: seq<Segment>, b: seq<Segment>)
    requires |a| == |b| && forall i :: 0 <= i < |a| ==> a[i].verdict.kind == b[i].verdict.kind
    ensures HeavyCount(a) == HeavyCount(b)
  {
    if a != [] {
      forall i | 0 <= i < |a[1..]| ensures a[1..][i].verdict.kind == b[1..][i].verdict.kind {
        assert a[i + 1].verdict.kind == b[i + 1].verdict.kind;
      }
      SameCount(a[1..], b[1..]);
    }
  }

  // Another text is accepted exactly when both are supported, everything between the
  // commands is byte for byte the same, and every command only gains the rtk word, keeps
  // its class and its place in fore- or background, and redirects nothing.
  lemma AcceptedExactly(sh: Shell, original: string, candidate: string)
    requires original != candidate && Analyzed(sh, original).Ok? && Analyzed(sh, candidate).Ok?
    ensures Preserves(sh, original, candidate) == Ok(true) <==>
              && Analyzed(sh, original).value.Supported? && Analyzed(sh, candidate).value.Supported?
              && var a, b := Analyzed(sh, original).value.segments, Analyzed(sh, candidate).value.segments;
                 && |a| == |b| && Fits(original, a) && Fits(candidate, b)
                 && (forall i :: 0 <= i <= |a| ==> Gap(original, a, i) == Gap(candidate, b, i))
                 && (forall i :: 0 <= i < |a| ==> OnlyGains(a[i], b[i]))
    ensures Preserves(sh, original, candidate).Ok?
  {
    var x, y := Analyzed(sh, original).value, Analyzed(sh, candidate).value;
    if x.Supported? && y.Supported? && |x.segments| == |y.segments| {
      var a, b := x.segments, y.segments;
      AnalyzedSegments(sh, original);
      AnalyzedSegments(sh, candidate);
      TilesFit(sh, original, a);
      TilesFit(sh, candidate, b);
      SameFrameExactly(original, a, candidate, b);
      forall i | 0 <= i < |a| ensures SameSegment(a[i], b[i]) <==> OnlyGains(a[i], b[i]) {
        OnlyGainsExactly(a[i], b[i]);
      }
      if forall i :: 0 <= i < |a| ==> OnlyGains(a[i], b[i]) {
        SameCount(a, b);
      }
    }
  }
}

// analyze, the shell text around the segments, and the check on outside rewriters.
module Analyses {
  import opened Wrappers
  import opened Words
  import opened Paths
  import opened Classify
  import opened Parse

  datatype Analysis = Unsupported(reason: string) | Supported(segments: seq<Segment>)

  predicate ContainsText(s: string, pattern: string) {
    pattern <= s || (s != "" && ContainsText(s[1..], pattern))
  }

  // Sorting by the start of the span; equal starts keep their order.
  function InsertByStart(x: Segment, sorted: seq<Segment>): seq<Segment> {
    if sorted == [] || x.start <= sorted[0].start then [x] + sorted
    else [sorted[0]] + InsertByStart(x, sorted[1..])
  }

  function SortByStart(segments: seq<Segment>): seq<Segment> {
    if segments == [] then [] else InsertByStart(segments[0], SortByStart(segments[1..]))
  }

  predicate Refused(source: string) {
    |source| > MAX_COMMAND_BYTES || '\0' in source
    || ContainsText(source, "<<") || ContainsText(source, "$((") || '`' in source
  }

  function Refusal(source: string): string {
    if |source| > MAX_COMMAND_BYTES then "command exceeds 64 KiB"
    else if '\0' in source then "command contains NUL"
    else "command contains unsupported shell syntax"
  }

  function OfTree(sh: Shell, source: string, tree: Tree): Result<Analysis, Failure> {
    if tree.hasError || tree.root.end != |source| then Ok(Unsupported("Bash CST contains errors"))
    else
      match Collected(sh, tree.root, source, false, 0)
      case Err(e) => Err(e)
      case Ok(segments) =>
        if segments == [] then Ok(Unsupported("no simple command found"))
        else Ok(Supported(SortByStart(segments)))
  }

  // analyze
  function Analyzed(sh: Shell, source: string): Result<Analysis, Failure> {
    if Refused(source) then Ok(Unsupported(Refusal(source)))
    else
      match sh.parse(source)
      case None => Err(NoTree)
      case Some(tree) => OfTree(sh, source, tree)
  }

  method Analyze(sh: Shell, source: string) returns (r: Result<Analysis, Failure>)
    ensures r == Analyzed(sh, source)
  {
    if |source| > MAX_COMMAND_BYTES {
      return Ok(Unsupported("command exceeds 64 KiB"));
    }
    if '\0' in source {
      return Ok(Unsupported("command contains NUL"));
    }
    if ContainsText(source, "<<") || ContainsText(source, "$((") || '`' in source {
      return Ok(Unsupported("command contains unsupported shell syntax"));
    }
    var parsed := sh.parse(source);
    match parsed {
      case None => return Err(NoTree);
      case Some(tree) =>
        if tree.hasError || tree.root.end != |source| {
          return Ok(Unsupported("Bash CST contains errors"));
        }
        var walked := Walk(sh, tree.root, [], source, 0, []);
        AfterNothing(Collected(sh, tree.root, source, false, 0));
        assert !Hidden([]);
        match walked {
          case Err(e) => return Err(e);
          case Ok(segments) =>
            if segments == [] {
              return Ok(Unsupported("no simple command found"));
            }
            return Ok(Supported(SortByStart(segments)));
        }
    }
  }

  lemma AfterNothing<T, E>(r: Result<seq<T>, E>)
    ensures Append(Ok([]), r) == r
  {
    if r.Ok? {
      assert [] + r.value == r.value;
    }
  }

  // ---- what an analysis contains -----------------------------------------------------

  lemma {:induction false} SortedIsFixed(segments: seq<Segment>)
    requires forall i, j :: 0 <= i < j < |segments| ==> segments[i].start < segments[j].start
    ensures SortByStart(segments) == segments
  {
    if segments != [] {
      SortedIsFixed(segments[1..]);
      assert segments == [segments[0]] + segments[1..];
    }
  }

  // The segments of a command: in source order, disjoint, each with its own text.
  ghost predicate Tiles(sh: Shell, source: string, segments: seq<Segment>) {
    Within(sh, source, segments, 0, |source|)
  }

  lemma AnalyzedSegments(sh: Shell, source: string)
    ensures Analyzed(sh, source).Ok? && Analyzed(sh, source).value.Supported? ==>
              var segments := Analyzed(sh, source).value.segments;
              && !Refused(source) && segments != [] && Tiles(sh, source, segments)
              && segments == Found(sh, sh.parse(source).value.root, source, false)
  {
    if Analyzed(sh, source).Ok? && Analyzed(sh, source).value.Supported? {
      var root := sh.parse(source).value.root;
      CollectedFails(sh, root, source, false, 0);
      FoundInOrder(sh, root, source, false);
      var found := Found(sh, root, source, false);
      forall i, j | 0 <= i < j < |found| ensures found[i].start < found[j].start {
        assert found[i] in found && IsSegment(sh, source, found[i]);
      }
      SortedIsFixed(found);
    }
  }

  // Analysis fails exactly on texts that pass the first checks and have no tree, or a
  // clean tree more than 128 levels deep outside its commands.
  lemma AnalysisFails(sh: Shell, source: string)
    ensures Analyzed(sh, source).Err? <==>
              && !Refused(source)
              && (sh.parse(source) == None
                  || var tree := sh.parse(source).value;
                     !tree.hasError && tree.root.end == |source| && Depth(tree.root) > MAX_TREE_DEPTH)
  {
    if !Refused(source) && sh.parse(source).Some? {
      var tree := sh.parse(source).value;
      if tree.root.end == |source| {
        CollectedFails(sh, tree.root, source, false, 0);
      }
    }
  }

  predicate CountsAsHeavy(s: Segment) {
    s.verdict.kind == Heavy || s.verdict.kind == UnsafeBackgroundHeavy
  }

  function HeavyCount(segments: seq<Segment>): (n: nat)
    ensures n <= |segments|
    ensures n == 0 <==> forall s :: s in segments ==> !CountsAsHeavy(s)
  {
    if segments == [] then 0 else (if CountsAsHeavy(segments[0]) then 1 else 0) + HeavyCount(segments[1..])
  }

  // heavy_count of an analysis; nothing is heavy in an unsupported command
  function HeavyIn(a: Analysis): nat {
    if a.Supported? then HeavyCount(a.segments) else 0
  }

  // ---- the text around the segments ----------------------------------------------------

  // The text between two offsets, if they are in order and inside the source.
  function Slice(source: string, from: nat, to: nat): Option<string> {
    if from <= to <= |source| then Some(source[from..to]) else None
  }

  function Frame(source: string, segments: seq<Segment>, cursor: nat): Option<seq<string>> {
    if segments == [] then
      match Slice(source, cursor, |source|) case None => None case Some(s) => Some([s])
    else
      match Slice(source, cursor, segments[0].start)
      case None => None
      case Some(s) =>
        match Frame(source, segments[1..], segments[0].end)
        case None => None
        case Some(rest) => Some([s] + rest)
  }

  function Prepend(frame: seq<string>, rest: Option<seq<string>>): Option<seq<string>> {
    match rest case None => None case Some(more) => Some(frame + more)
  }

  method ShellFrame(source: string, segments: seq<Segment>) returns (r: Option<seq<string>>)
    ensures r == Frame(source, segments, 0)
  {
    var frame: seq<string> := [];
    var cursor := 0;
    PrependNothing(Frame(source, segments, 0));
    for i := 0 to |segments|
      invariant segments[i..] == [] ==> i == |segments|
      invariant Prepend(frame, Frame(source, segments[i..], cursor)) == Frame(source, segments, 0)
    {
      var rest := segments[i..];
      assert rest[0] == segments[i] && rest[1..] == segments[i + 1..];
      var piece := Slice(source, cursor, segments[i].start);
      if piece == None {
        return None;
      }
      PrependOne(frame, piece.value, Frame(source, rest[1..], segments[i].end));
      frame := frame + [piece.value];
      cursor := segments[i].end;
    }
    var last := Slice(source, cursor, |source|);
    if last == None {
      return None;
    }
    return Some(frame + [last.value]);
  }

  lemma PrependNothing(rest: Option<seq<string>>)
    ensures Prepend([], rest) == rest
  {
    if rest.Some? {
      assert [] + rest.value == rest.value;
    }
  }

  lemma PrependOne(frame: seq<string>, s: string, rest: Option<seq<string>>)
    ensures Prepend(frame + [s], rest) == Prepend(frame, Prepend([s], rest))
  {
    if rest.Some? {
      assert frame + ([s] + rest.value) == (frame + [s]) + rest.value;
    }
  }

  // Frame and segment texts put together again.
  function Weave(frame: seq<string>, texts: seq<string>): string
    requires |frame| == |texts| + 1
  {
    if texts == [] then frame[0] else frame[0] + texts[0] + Weave(frame[1..], texts[1..])
  }

  function Texts(segments: seq<Segment>): (ts: seq<string>)
    ensures |ts| == |segments| && forall i :: 0 <= i < |ts| ==> ts[i] == segments[i].text
  {
    if segments == [] then [] else [segments[0].text] + Texts(segments[1..])
  }

  // Segments of a source from a position on: the recursive form of Tiles.
  predicate Spans(source: string, segments: seq<Segment>, cursor: nat) {
    if segments == [] then cursor <= |source|
    else
      var s := segments[0];
      && cursor <= s.start <= s.at < s.end <= |source|
      && s.text == source[s.start..s.end]
      && Spans(source, segments[1..], s.end)
  }

  lemma {:induction false} TilesSpan(sh: Shell, source: string, segments: seq<Segment>, cursor: nat)
    requires Within(sh, source, segments, cursor, |source|) && cursor <= |source|
    ensures Spans(source, segments, cursor)
  {
    if segments != [] {
      var s := segments[0];
      assert s in segments && IsSegment(sh, source, s);
      forall t | t in segments[1..] ensures IsSegment(sh, source, t) && s.end <= t.start && t.end <= |source| {
        var j :| 1 <= j < |segments| && segments[j] == t;
        assert segments[0].end <= segments[j].start;
      }
      TilesSpan(sh, source, segments[1..], s.end);
    }
  }

  // Every text is its frame interleaved with its segments.
  lemma {:induction false} FrameRebuilds(source: string, segments: seq<Segment>, cursor: nat)
    requires Spans(source, segments, cursor)
    ensures var frame := Frame(source, segments, cursor);
            && frame.Some? && |frame.value| == |segments| + 1
            && Weave(frame.value, Texts(segments)) == source[cursor..]
  {
    if segments == [] {
      assert source[cursor..|source|] == source[cursor..];
    } else {
      var s := segments[0];
      FrameRebuilds(source, segments[1..], s.end);
      var rest := Frame(source, segments[1..], s.end).value;
      assert ([source[cursor..s.start]] + rest)[1..] == rest;
      assert ([s.text] + Texts(segments[1..]))[1..] == Texts(segments[1..]);
      assert source[cursor..] == source[cursor..s.start] + source[s.start..s.end] + source[s.end..];
    }
  }

  // ---- outside rewriters ---------------------------------------------------------------

  predicate ContainsRedirection(text: string) {
    '<' in text || '>' in text
  }

  // The assignments in front of a command.
  function Leading(words: seq<string>): (before: seq<string>)
    ensures |before| <= |words|
  {
    if words != [] && IsAssignment(words[0]) then [words[0]] + Leading(words[1..]) else []
  }

  // adds_only_rtk_prefix
  predicate AddsOnlyRtk(original: string, candidate: string) {
    match (Split(original), Split(candidate))
    case (Some(before), Some(after)) =>
      var insertion := |Leading(before)|;
      && |after| == |before| + 1
      && FileName(after[insertion]) == Some("rtk")
      && after[..insertion] + after[insertion + 1..] == before
    case _ => false
  }

  predicate SameSegment(before: Segment, after: Segment) {
    && before.background == after.background
    && before.verdict.kind == after.verdict.kind
    && !ContainsRedirection(before.text)
    && !ContainsRedirection(after.text)
    && AddsOnlyRtk(before.text, after.text)
  }

  predicate SameStructure(original: string, a: Analysis, candidate: string, b: Analysis) {
    && a.Supported? && b.Supported?
    && |a.segments| == |b.segments|
    && HeavyCount(a.segments) == HeavyCount(b.segments)
    && Frame(original, a.segments, 0) == Frame(candidate, b.segments, 0)
    && forall i :: 0 <= i < |a.segments| ==> SameSegment(a.segments[i], b.segments[i])
  }

  // rewrite_preserves_structure
  function Preserves(sh: Shell, original: string, candidate: string): Result<bool, Failure> {
    if original == candidate then Ok(true)
    else
      match Analyzed(sh, original)
      case Err(e) => Err(e)
      case Ok(a) =>
        match Analyzed(sh, candidate)
        case Err(e) => Err(e)
        case Ok(b) => Ok(SameStructure(original, a, candidate, b))
  }

  method RewritePreservesStructure(sh: Shell, original: string, candidate: string) returns (r: Result<bool, Failure>)
    ensures r == Preserves(sh, original, candidate)
  {
    if original == candidate {
      return Ok(true);
    }
    var first := Analyze(sh, original);
    if first.Err? {
      return Err(first.error);
    }
    var second := Analyze(sh, candidate);
    if second.Err? {
      return Err(second.error);
    }
    var a, b := first.value, second.value;
    if !a.Supported? || !b.Supported? || |a.segments| != |b.segments|
       || HeavyCount(a.segments) != HeavyCount(b.segments) {
      return Ok(false);
    }
    var left := ShellFrame(original, a.segments);
    var right := ShellFrame(candidate, b.segments);
    if left != right {
      return Ok(false);
    }
    var same := SameSegments(a.segments, b.segments);
    return Ok(same);
  }

  method SameSegments(before: seq<Segment>, after: seq<Segment>) returns (r: bool)
    requires |before| == |after|
    ensures r <==> forall i :: 0 <= i < |before| ==> SameSegment(before[i], after[i])
  {
    for i := 0 to |before|
      invariant forall j :: 0 <= j < i ==> SameSegment(before[j], after[j])
    {
      var x, y := before[i], after[i];
      if x.background != y.background
         || x.verdict.kind != y.verdict.kind
         || ContainsRedirection(x.text)
         || ContainsRedirection(y.text)
         || !AddsOnlyRtk(x.text, y.text) {
        assert !SameSegment(before[i], after[i]);
        return false;
      }
    }
    return true;
  }

  // The words of a command: its leading assignments and the rest.
  ghost predicate Parts(words: seq<string>, before: seq<string>, rest: seq<string>) {
    words == before + rest && AllAssignments(before) && (rest == [] || !IsAssignment(rest[0]))
  }

  lemma {:induction false} LeadingAssignments(words: seq<string>)
    ensures Parts(words, Leading(words), Drop(IsAssignment, words))
  {
    if words != [] && IsAssignment(words[0]) {
      LeadingAssignments(words[1..]);
      assert words == [words[0]] + words[1..];
    }
  }

  lemma PartsAreUnique(words: seq<string>, before: seq<string>, rest: seq<string>)
    requires Parts(words, before, rest)
    ensures Drop(IsAssignment, words) == rest && Leading(words) == before
  {
    DropAssignments(before, rest);
    NotDropped(IsAssignment, rest);
    LeadingAssignments(words);
    var n := |words| - |rest|;
    assert words[..n] == before && words[..n] == Leading(words);
  }

  // The check accepts exactly the texts whose words are the original words with one
  // word, a path to rtk, after the leading assignments.
  lemma AddsOnlyRtkExactly(original: string, candidate: string, before: seq<string>, rest: seq<string>)
    requires Split(original).Some? && Parts(Split(original).value, before, rest)
    ensures AddsOnlyRtk(original, candidate) <==>
              exists token :: FileName(token) == Some("rtk") && Split(candidate) == Some(before + [token] + rest)
  {
    var words := Split(original).value;
    PartsAreUnique(words, before, rest);
    var n := |before|;
    assert words[..n] == before && words[n..] == rest;
    if AddsOnlyRtk(original, candidate) {
      var after := Split(candidate).value;
      assert after == after[..n] + [after[n]] + after[n + 1..];
      assert (after[..n] + after[n + 1..])[..n] == after[..n];
      assert (after[..n] + after[n + 1..])[n..] == after[n + 1..];
      assert Split(candidate) == Some(before + [after[n]] + rest);
    }
    if token :| FileName(token) == Some("rtk") && Split(candidate) == Some(before + [token] + rest) {
      var after := before + [token] + rest;
      assert after[..n] == before && after[n + 1..] == rest && after[n] == token;
    }
  }

  // An accepted segment is classified as the original under every rule set and table,
  // unless the original command starts with "--".
  lemma AcceptedKeepsClass(original: string, candidate: string, before: seq<string>, rest: seq<string>,
                           rules: seq<Rule>, tables: Tables)
    requires AddsOnlyRtk(original, candidate) && Parts(Split(original).value, before, rest)
    requires rest == [] || rest[0] != "--"
    ensures Split(candidate).Some?
    ensures Classified(Split(candidate).value, rules, tables) == Classified(Split(original).value, rules, tables)
  {
    AddsOnlyRtkExactly(original, candidate, before, rest);
    var token :| FileName(token) == Some("rtk") && Split(candidate) == Some(before + [token] + rest);
    RtkPrefixKeepsNormalForm(before, token, rest);
  }
}

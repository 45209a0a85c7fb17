// What the segments of an analysed command are, in terms of its text and its syntax tree.
module SegmentFacts {
  import opened Wrappers
  import opened Words
  import opened Classify
  import opened Parse
  import opened Analyses
  import opened Insertion
  import opened Rewriting

  // ---- the text after a command --------------------------------------------------------------

  predicate IsWhite(c: char) {
    c == ' ' || c == '\t' || c == '\n' || c == '\r' || c == 11 as char || c == 12 as char
  }

  // White space, then an ampersand that no other ampersand follows, at position j.
  ghost predicate AmpersandAt(source: string, end: nat, j: nat) {
    && end <= j < |source| && (forall i :: end <= i < j ==> IsWhite(source[i]))
    && source[j] == '&' && (j + 1 < |source| ==> source[j + 1] != '&')
  }

  ghost predicate SentToBackground(source: string, end: nat) {
    exists j: nat :: AmpersandAt(source, end, j)
  }

  lemma WhiteIsSpace(c: char)
    ensures IsSpace(c) <==> IsWhite(c)
  {
  }

  // Where trimming stops.
  lemma {:induction false} TrimmedTo(s: string) returns (k: nat)
    ensures k <= |s| && TrimStart(s) == s[k..] && forall i :: 0 <= i < k ==> IsWhite(s[i])
    ensures k < |s| ==> !IsWhite(s[k])
  {
    if s != "" && IsSpace(s[0]) {
      WhiteIsSpace(s[0]);
      k := TrimmedTo(s[1..]);
      assert s[1..][k..] == s[k + 1..];
      assert forall i :: 1 <= i < k + 1 ==> s[i] == s[1..][i - 1];
      k := k + 1;
    } else {
      k := 0;
      if s != "" {
        WhiteIsSpace(s[0]);
      }
    }
  }

  lemma BackgroundOfRest(rest: string)
    ensures IsBackground(rest) <==> SentToBackground(rest, 0)
  {
    var k := TrimmedTo(rest);
    assert k < |rest| ==> rest[k..][0] == rest[k];
    assert k + 1 < |rest| ==> rest[k..][1] == rest[k + 1];
    if IsBackground(rest) {
      assert AmpersandAt(rest, 0, k);
    }
    if j: nat :| AmpersandAt(rest, 0, j) {
      assert j == k;
    }
  }

  // A command is in the background exactly when white space and a single ampersand follow it.
  lemma BackgroundExactly(source: string, end: nat)
    requires end <= |source|
    ensures IsBackground(source[end..]) <==> SentToBackground(source, end)
  {
    var rest := source[end..];
    BackgroundOfRest(rest);
    if j: nat :| AmpersandAt(rest, 0, j) {
      forall i | end <= i < end + j ensures IsWhite(source[i]) {
        assert source[i] == rest[i - end];
      }
      assert AmpersandAt(source, end, end + j);
    }
    if j: nat :| AmpersandAt(source, end, j) {
      assert AmpersandAt(rest, 0, j - end);
    }
  }

  // ---- one segment ------------------------------------------------------------------------------

  // The verdict on words: their class, but heavy work in the background is unsafe.
  ghost predicate Judged(sh: Shell, source: string, s: Segment) {
    var words := match Split(s.text) case Some(ws) => ws case None => [];
    var c := Classified(words, sh.rules, sh.tables);
    && s.verdict.rule == c.rule && s.verdict.confidence == c.confidence && s.verdict.wrapped == c.wrapped
    && s.verdict.kind == (if c.kind == Heavy && SentToBackground(source, s.end) then UnsafeBackgroundHeavy else c.kind)
  }

  ghost predicate Described(sh: Shell, source: string, s: Segment) {
    && s.start <= s.at < s.end <= |source| && s.text == source[s.start..s.end]
    && (s.background <==> SentToBackground(source, s.end))
    && Judged(sh, source, s)
  }

  // Every segment of a supported command: its place, its text, whether it runs in the
  // background, and its verdict.
  lemma SegmentsDescribed(sh: Shell, source: string, segments: seq<Segment>)
    requires Analyzed(sh, source) == Ok(Supported(segments))
    ensures forall s :: s in segments ==> Described(sh, source, s)
  {
    AnalyzedSegments(sh, source);
    forall s | s in segments ensures Described(sh, source, s) {
      assert IsSegment(sh, source, s);
      BackgroundExactly(source, s.end);
    }
  }

  // A heavy command with a single ampersand behind it.
  ghost predicate HeavyBehind(sh: Shell, source: string, s: Segment) {
    && SentToBackground(source, s.end)
    && Classified(match Split(s.text) case Some(ws) => ws case None => [], sh.rules, sh.tables).kind == Heavy
  }

  lemma UnsafeExactly(sh: Shell, source: string, segments: seq<Segment>, s: Segment)
    requires Analyzed(sh, source) == Ok(Supported(segments)) && s in segments
    ensures s.verdict.kind == UnsafeBackgroundHeavy <==> HeavyBehind(sh, source, s)
  {
    SegmentsDescribed(sh, source, segments);
    assert Described(sh, source, s);
  }

  // A rewrite is denied exactly when denial is on and a heavy command has a single
  // ampersand behind it.
  lemma DeniedExactly(sh: Shell, source: string, binary: string, owner: string, denyBackground: bool)
    ensures var r := Rewritten(sh, source, binary, owner, denyBackground);
            r.Ok? && r.value.denied <==>
              && denyBackground && Analyzed(sh, source).Ok? && Analyzed(sh, source).value.Supported?
              && exists s :: s in Analyzed(sh, source).value.segments && HeavyBehind(sh, source, s)
  {
    if Analyzed(sh, source).Ok? && Analyzed(sh, source).value.Supported? {
      var segments := Analyzed(sh, source).value.segments;
      forall s | s in segments
        ensures s.verdict.kind == UnsafeBackgroundHeavy <==> HeavyBehind(sh, source, s)
      {
        UnsafeExactly(sh, source, segments, s);
      }
    }
  }

  // ---- which commands are segments -----------------------------------------------------------

  // A way down the tree from n to c.
  ghost predicate LeadsTo(path: seq<Node>, n: Node, c: Node) {
    && path != [] && path[0] == n && path[|path| - 1] == c
    && forall i :: 0 <= i < |path| - 1 ==> path[i + 1] in path[i].kids
  }

  // Nothing above the last node hides commands, or is itself a command.
  ghost predicate InTheOpen(path: seq<Node>) {
    forall i :: 0 <= i < |path| - 1 ==>
      path[i].kind !in {Kind.Command, CommandSubstitution, ProcessSubstitution, Subshell, HeredocBody}
  }

  ghost predicate Reaches(n: Node, c: Node) {
    exists path: seq<Node> :: LeadsTo(path, n, c) && InTheOpen(path)
  }

  lemma OpenBelow(n: Node, kid: Node, c: Node)
    requires kid in n.kids && Reaches(kid, c)
    requires n.kind !in {Kind.Command, CommandSubstitution, ProcessSubstitution, Subshell, HeredocBody}
    ensures Reaches(n, c)
  {
    var path: seq<Node> :| LeadsTo(path, kid, c) && InTheOpen(path);
    var longer := [n] + path;
    assert LeadsTo(longer, n, c) && InTheOpen(longer);
  }

  lemma OpenAt(n: Node, c: Node) returns (i: nat)
    requires n != c && Reaches(n, c)
    ensures i < |n.kids| && Reaches(n.kids[i], c)
    ensures n.kind !in {Kind.Command, CommandSubstitution, ProcessSubstitution, Subshell, HeredocBody}
  {
    var path: seq<Node> :| LeadsTo(path, n, c) && InTheOpen(path);
    assert |path| > 1;
    assert path[1] in path[0].kids;
    i :| 0 <= i < |n.kids| && n.kids[i] == path[1];
    var rest := path[1..];
    assert LeadsTo(rest, n.kids[i], c) && InTheOpen(rest);
  }

  lemma {:induction false} HiddenExposesNothing(n: Node, c: Node)
    ensures !Exposes(n, true, c)
  {
    if !n.kind.Command? {
      forall i | 0 <= i < |n.kids| ensures !Exposes(n.kids[i], true, c) {
        HiddenExposesNothing(n.kids[i], c);
      }
    }
  }

  lemma {:induction false} ExposedInTheOpen(n: Node, c: Node)
    requires Exposes(n, false, c)
    ensures c.kind.Command? && Reaches(n, c)
  {
    if n.kind.Command? {
      assert LeadsTo([n], n, c) && InTheOpen([n]);
    } else {
      var i :| 0 <= i < |n.kids| && Exposes(n.kids[i], false || HidesCommands(n.kind), c);
      if HidesCommands(n.kind) {
        HiddenExposesNothing(n.kids[i], c);
      }
      ExposedInTheOpen(n.kids[i], c);
      OpenBelow(n, n.kids[i], c);
    }
  }

  lemma {:induction false} OpenIsExposed(n: Node, c: Node)
    requires c.kind.Command? && Reaches(n, c)
    ensures Exposes(n, false, c)
  {
    if n != c {
      var i := OpenAt(n, c);
      OpenIsExposed(n.kids[i], c);
    }
  }

  // ---- what makes a command dynamic ----------------------------------------------------------

  ghost predicate Inside(n: Node, d: Node) {
    exists path: seq<Node> :: LeadsTo(path, n, d)
  }

  lemma InsideKid(n: Node, kid: Node, d: Node)
    requires kid in n.kids && Inside(kid, d)
    ensures Inside(n, d)
  {
    var path: seq<Node> :| LeadsTo(path, kid, d);
    assert LeadsTo([n] + path, n, d);
  }

  lemma InsideAt(n: Node, d: Node) returns (i: nat)
    requires n != d && Inside(n, d)
    ensures i < |n.kids| && Inside(n.kids[i], d)
  {
    var path: seq<Node> :| LeadsTo(path, n, d);
    assert |path| > 1;
    assert path[1] in path[0].kids;
    i :| 0 <= i < |n.kids| && n.kids[i] == path[1];
    assert LeadsTo(path[1..], n.kids[i], d);
  }

  // A substitution, a here-document or a syntax error anywhere inside.
  ghost predicate HoldsDynamic(n: Node) {
    exists d :: Inside(n, d) && d.kind in {CommandSubstitution, ProcessSubstitution, HeredocRedirect, ErrorNode}
  }

  lemma {:induction false} DynamicInside(n: Node)
    requires HasDynamic(n)
    ensures HoldsDynamic(n)
  {
    if IsDynamic(n.kind) {
      assert LeadsTo([n], n, n);
      assert Inside(n, n);
    } else {
      var i :| 0 <= i < |n.kids| && HasDynamic(n.kids[i]);
      DynamicInside(n.kids[i]);
      var d :| Inside(n.kids[i], d)
               && d.kind in {CommandSubstitution, ProcessSubstitution, HeredocRedirect, ErrorNode};
      InsideKid(n, n.kids[i], d);
    }
  }

  lemma {:induction false} InsideIsDynamic(n: Node, d: Node)
    requires Inside(n, d) && d.kind in {CommandSubstitution, ProcessSubstitution, HeredocRedirect, ErrorNode}
    ensures HasDynamic(n)
    decreases n
  {
    if n != d {
      var i := InsideAt(n, d);
      InsideIsDynamic(n.kids[i], d);
    }
  }

  lemma DynamicExactly(n: Node)
    ensures HasDynamic(n) <==> HoldsDynamic(n)
  {
    if HasDynamic(n) {
      DynamicInside(n);
    }
    if HoldsDynamic(n) {
      var d :| Inside(n, d) && d.kind in {CommandSubstitution, ProcessSubstitution, HeredocRedirect, ErrorNode};
      InsideIsDynamic(n, d);
    }
  }

  // A named command in the open with nothing dynamic inside.
  ghost predicate Plain(root: Node, c: Node) {
    c.kind.Command? && Reaches(root, c) && c.name.Some? && !HoldsDynamic(c)
  }

  // The segments of a tree are exactly its plain commands.
  lemma FoundArePlain(sh: Shell, root: Node, source: string, s: Segment)
    requires WellFormed(root) && root.end <= |source|
    ensures s in Found(sh, root, source, false) <==>
              exists c: Node :: Plain(root, c) && Contributes(sh, c, source, s)
  {
    FoundExactly(sh, root, source, s);
    if c: Node :| Exposes(root, false, c) && Contributes(sh, c, source, s) {
      ExposedInTheOpen(root, c);
      DynamicExactly(c);
      assert Plain(root, c);
    }
    if c: Node :| Plain(root, c) && Contributes(sh, c, source, s) {
      OpenIsExposed(root, c);
    }
  }

  lemma {:induction false} OpenIsInside(n: Node, c: Node)
    requires WellFormed(n) && Reaches(n, c)
    ensures WellFormed(c) && n.start <= c.start && c.end <= n.end
  {
    if n != c {
      var i := OpenAt(n, c);
      OpenIsInside(n.kids[i], c);
    }
  }

  // Every plain command gives the segment with its range and the start of its name.
  lemma PlainIsFound(sh: Shell, root: Node, source: string, c: Node)
    requires WellFormed(root) && root.end <= |source| && Plain(root, c)
    ensures c.start <= c.end <= |source| && c.name.Some?
    ensures SegmentAt(sh, source, c.start, c.end, c.name.value) in Found(sh, root, source, false)
  {
    OpenIsInside(root, c);
    DynamicExactly(c);
    var s := SegmentAt(sh, source, c.start, c.end, c.name.value);
    assert CommandSegments(sh, c, source, false) == [s];
    assert Contributes(sh, c, source, s);
    FoundArePlain(sh, root, source, s);
  }

  // ---- which texts are supported ---------------------------------------------------------------

  ghost predicate OccursAt(source: string, pattern: string, i: nat) {
    i <= |source| && pattern <= source[i..]
  }

  ghost predicate Occurs(source: string, pattern: string) {
    exists i: nat :: OccursAt(source, pattern, i)
  }

  lemma {:induction false} ContainsExactly(source: string, pattern: string)
    ensures ContainsText(source, pattern) <==> Occurs(source, pattern)
  {
    if pattern <= source {
      assert source[0..] == source;
      assert OccursAt(source, pattern, 0);
    } else if source != "" {
      var rest := source[1..];
      ContainsExactly(rest, pattern);
      if i: nat :| OccursAt(rest, pattern, i) {
        assert rest[i..] == source[i + 1..];
        assert OccursAt(source, pattern, i + 1);
      }
      if i: nat :| OccursAt(source, pattern, i) {
        assert source[0..] == source;
        assert i > 0;
        assert rest[i - 1..] == source[i..];
        assert OccursAt(rest, pattern, i - 1);
      }
    } else {
      assert forall i: nat :: i <= |source| ==> source[i..] == source;
    }
  }

  ghost predicate Readable(source: string) {
    && |source| <= 65536 && (forall c :: c in source ==> c != '\0' && c != '`')
    && !Occurs(source, "<<") && !Occurs(source, "$((")
  }

  lemma RefusedExactly(source: string)
    ensures Refused(source) <==> !Readable(source)
  {
    ContainsExactly(source, "<<");
    ContainsExactly(source, "$((");
  }

  // A command is supported exactly when its text passes the first checks, has a clean tree
  // over all of it that is not too deep, and holds a plain command.
  lemma SupportedExactly(sh: Shell, source: string)
    ensures Analyzed(sh, source).Ok? && Analyzed(sh, source).value.Supported? <==>
              && Readable(source) && sh.parse(source).Some?
              && var tree := sh.parse(source).value;
                 && !tree.hasError && tree.root.end == |source| && Depth(tree.root) <= 128
                 && exists c: Node :: Plain(tree.root, c)
  {
    RefusedExactly(source);
    if !Refused(source) && sh.parse(source).Some? && sh.parse(source).value.root.end == |source| {
      var root := sh.parse(source).value.root;
      CollectedFails(sh, root, source, false, 0);
      var found := Found(sh, root, source, false);
      if found != [] {
        FoundArePlain(sh, root, source, found[0]);
      }
      if c: Node :| Plain(root, c) {
        PlainIsFound(sh, root, source, c);
      }
      SomeSorted(found);
    }
  }

  // Why a command is not supported.
  lemma UnsupportedReason(sh: Shell, source: string)
    requires Analyzed(sh, source).Ok? && Analyzed(sh, source).value.Unsupported?
    ensures Analyzed(sh, source).value.reason
         == if |source| > 65536 then "command exceeds 64 KiB"
            else if '\0' in source then "command contains NUL"
            else if !Readable(source) then "command contains unsupported shell syntax"
            else if sh.parse(source).Some?
                    && (sh.parse(source).value.hasError || sh.parse(source).value.root.end != |source|)
            then "Bash CST contains errors"
            else "no simple command found"
  {
    RefusedExactly(source);
  }

  lemma SomeSorted(segments: seq<Segment>)
    ensures segments != [] ==> SortByStart(segments) != []
  {
  }

  // The segments of a supported command are those of its plain commands.
  lemma SegmentsExactly(sh: Shell, source: string, segments: seq<Segment>, s: Segment)
    requires Analyzed(sh, source) == Ok(Supported(segments))
    ensures s in segments <==>
              exists c: Node :: Plain(sh.parse(source).value.root, c) && Contributes(sh, c, source, s)
  {
    AnalyzedSegments(sh, source);
    FoundArePlain(sh, sh.parse(source).value.root, source, s);
  }
}

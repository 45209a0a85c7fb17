// Segments of a Bash command: the tree walk and the shell text around the segments.
module Parse {
  import opened Wrappers
  import opened Words
  import opened Paths
  import opened Classify

  const MAX_COMMAND_BYTES := 64 * 1024
  const MAX_TREE_DEPTH := 128

  // ---- syntax trees ----------------------------------------------------------------

  datatype Kind = Command | CommandSubstitution | ProcessSubstitution | Subshell
    | HeredocBody | HeredocRedirect | ErrorNode | Other(name: string)

  // A node with its byte range, where its "name" field starts, and its named children.
  datatype Node = Node(kind: Kind, start: nat, end: nat, name: Option<nat>, kids: seq<Node>)

  // Ranges are nested and in source order; a name starts inside its node.
  predicate WellFormed(n: Node) {
    && n.start <= n.end
    && (n.name.Some? ==> n.start <= n.name.value < n.end)
    && (forall i :: 0 <= i < |n.kids| ==>
          n.start <= n.kids[i].start && n.kids[i].end <= n.end && WellFormed(n.kids[i]))
    && (forall i, j :: 0 <= i < j < |n.kids| ==> n.kids[i].end <= n.kids[j].start)
  }

  type Root = n: Node | WellFormed(n) witness Node(Other("program"), 0, 0, None, [])

  datatype Tree = Tree(root: Root, hasError: bool)

  // What analysis depends on: the Bash parser, the custom rules and the tool tables.
  datatype Shell = Shell(parse: string -> Option<Tree>, rules: seq<Rule>, tables: Tables)

  // ---- segments ----------------------------------------------------------------------

  datatype Segment = Segment(start: nat, end: nat, at: nat, text: string, verdict: Classification, background: bool)

  datatype Failure = TooDeep | NoTree

  predicate HidesCommands(k: Kind) {
    k == CommandSubstitution || k == ProcessSubstitution || k == Subshell || k == HeredocBody
  }

  predicate IsDynamic(k: Kind) {
    k == CommandSubstitution || k == ProcessSubstitution || k == HeredocRedirect || k == ErrorNode
  }

  // has_nested_dynamic_syntax
  predicate HasDynamic(n: Node) {
    IsDynamic(n.kind) || exists i :: 0 <= i < |n.kids| && HasDynamic(n.kids[i])
  }

  // ASCII white space.
  predicate IsSpace(c: char) {
    c == ' ' || 9 as char <= c <= 13 as char
  }

  function TrimStart(s: string): (t: string)
    ensures t == "" || !IsSpace(t[0])
  {
    if s != "" && IsSpace(s[0]) then TrimStart(s[1..]) else s
  }

  predicate IsBackground(rest: string) {
    var suffix := TrimStart(rest);
    "&" <= suffix && !("&&" <= suffix)
  }

  function SplitOrEmpty(text: string): seq<string> {
    match Split(text) case Some(words) => words case None => []
  }

  function InBackground(c: Classification, background: bool): Classification {
    if background && c.kind == Heavy then c.(kind := UnsafeBackgroundHeavy) else c
  }

  function Verdict(sh: Shell, text: string, background: bool): Classification {
    InBackground(Classified(SplitOrEmpty(text), sh.rules, sh.tables), background)
  }

  function SegmentAt(sh: Shell, source: string, start: nat, end: nat, at: nat): Segment
    requires start <= end <= |source|
  {
    var text := source[start..end];
    var background := IsBackground(source[end..]);
    Segment(start, end, at, text, Verdict(sh, text, background), background)
  }

  function Append<T, E>(a: Result<seq<T>, E>, b: Result<seq<T>, E>): Result<seq<T>, E> {
    match a
    case Err(e) => Err(e)
    case Ok(xs) =>
      match b
      case Err(e) => Err(e)
      case Ok(ys) => Ok(xs + ys)
  }

  // A command node gives at most one segment and is never entered.
  function CommandSegments(sh: Shell, n: Node, source: string, hidden: bool): seq<Segment>
    requires WellFormed(n) && n.end <= |source|
  {
    if hidden || HasDynamic(n) || n.name == None then []
    else [SegmentAt(sh, source, n.start, n.end, n.name.value)]
  }

  function Collected(sh: Shell, n: Node, source: string, hidden: bool, depth: nat): Result<seq<Segment>, Failure>
    requires WellFormed(n) && n.end <= |source|
    decreases n, |n.kids| + 1
  {
    if depth > MAX_TREE_DEPTH then Err(TooDeep)
    else if n.kind.Command? then Ok(CommandSegments(sh, n, source, hidden))
    else CollectedKids(sh, n, |n.kids|, source, hidden || HidesCommands(n.kind), depth + 1)
  }

  // From the first k children.
  function CollectedKids(sh: Shell, n: Node, k: nat, source: string, hidden: bool, depth: nat):
      Result<seq<Segment>, Failure>
    requires WellFormed(n) && n.end <= |source| && k <= |n.kids|
    decreases n, k
  {
    if k == 0 then Ok([])
    else Append(CollectedKids(sh, n, k - 1, source, hidden, depth), Collected(sh, n.kids[k - 1], source, hidden, depth))
  }

  // has_unsafe_ancestor, on the kinds of the ancestors from the parent upwards
  method HasUnsafeAncestor(ancestors: seq<Kind>) returns (r: bool)
    ensures r <==> exists k :: k in ancestors && HidesCommands(k)
  {
    for i := 0 to |ancestors|
      invariant forall j :: 0 <= j < i ==> !HidesCommands(ancestors[j])
    {
      if HidesCommands(ancestors[i]) {
        assert ancestors[i] in ancestors;
        return true;
      }
    }
    return false;
  }

  ghost predicate Hidden(ancestors: seq<Kind>) {
    exists k :: k in ancestors && HidesCommands(k)
  }

  method Walk(sh: Shell, n: Node, ancestors: seq<Kind>, source: string, depth: nat, segments: seq<Segment>)
      returns (r: Result<seq<Segment>, Failure>)
    requires WellFormed(n) && n.end <= |source|
    ensures r == Append(Ok(segments), Collected(sh, n, source, Hidden(ancestors), depth))
    decreases n
  {
    if depth > MAX_TREE_DEPTH {
      return Err(TooDeep);
    }
    if n.kind.Command? {
      var hidden := HasUnsafeAncestor(ancestors);
      if hidden || HasDynamic(n) || n.name == None {
        assert segments + [] == segments;
        return Ok(segments);
      }
      return Ok(segments + [SegmentAt(sh, source, n.start, n.end, n.name.value)]);
    }
    var path := [n.kind] + ancestors;
    assert Hidden(path) <==> HidesCommands(n.kind) || Hidden(ancestors) by {
      assert forall k :: k in path <==> k == n.kind || k in ancestors;
    }
    var collected := segments;
    assert segments + [] == segments;
    for i := 0 to |n.kids|
      invariant Append(Ok(segments), CollectedKids(sh, n, i, source, Hidden(path), depth + 1)) == Ok(collected)
    {
      var next := Walk(sh, n.kids[i], path, source, depth + 1, collected);
      AppendAssociates(Ok(segments), CollectedKids(sh, n, i, source, Hidden(path), depth + 1),
                       Collected(sh, n.kids[i], source, Hidden(path), depth + 1));
      CollectedKidsFail(sh, n, i + 1, |n.kids|, source, Hidden(path), depth + 1);
      match next {
        case Err(e) => return Err(e);
        case Ok(more) => collected := more;
      }
    }
    return Ok(collected);
  }

  lemma AppendAssociates<T, E>(a: Result<seq<T>, E>, b: Result<seq<T>, E>, c: Result<seq<T>, E>)
    ensures Append(Append(a, b), c) == Append(a, Append(b, c))
  {
    if a.Ok? && b.Ok? && c.Ok? {
      assert (a.value + b.value) + c.value == a.value + (b.value + c.value);
    }
  }

  lemma {:induction false} CollectedKidsFail(sh: Shell, n: Node, i: nat, k: nat, source: string, hidden: bool,
                                             depth: nat)
    requires WellFormed(n) && n.end <= |source| && i <= k <= |n.kids|
    ensures var first := CollectedKids(sh, n, i, source, hidden, depth);
            first.Err? ==> CollectedKids(sh, n, k, source, hidden, depth) == first
    decreases k
  {
    if i < k {
      CollectedKidsFail(sh, n, i, k - 1, source, hidden, depth);
    }
  }

  // ---- when the walk fails -----------------------------------------------------------

  function Max(a: nat, b: nat): nat {
    if a < b then b else a
  }

  // Levels below a node, not counting what is inside commands.
  function Depth(n: Node): nat
    decreases n, |n.kids| + 1
  {
    if n.kind.Command? then 0 else DepthOfKids(n, |n.kids|)
  }

  function DepthOfKids(n: Node, k: nat): nat
    requires k <= |n.kids|
    decreases n, k
  {
    if k == 0 then 0 else Max(DepthOfKids(n, k - 1), 1 + Depth(n.kids[k - 1]))
  }

  lemma {:induction false} CollectedFails(sh: Shell, n: Node, source: string, hidden: bool, depth: nat)
    requires WellFormed(n) && n.end <= |source|
    ensures Collected(sh, n, source, hidden, depth)
         == if depth + Depth(n) > MAX_TREE_DEPTH then Err(TooDeep) else Ok(Found(sh, n, source, hidden))
    decreases n, |n.kids| + 1
  {
    if depth <= MAX_TREE_DEPTH && !n.kind.Command? {
      CollectedKidsFails(sh, n, |n.kids|, source, hidden || HidesCommands(n.kind), depth + 1);
    }
  }

  lemma {:induction false} CollectedKidsFails(sh: Shell, n: Node, k: nat, source: string, hidden: bool, depth: nat)
    requires WellFormed(n) && n.end <= |source| && k <= |n.kids| && 0 < depth <= MAX_TREE_DEPTH + 1
    ensures CollectedKids(sh, n, k, source, hidden, depth)
         == if depth - 1 + DepthOfKids(n, k) > MAX_TREE_DEPTH then Err(TooDeep)
            else Ok(FoundInKids(sh, n, k, source, hidden))
    decreases n, k
  {
    if k > 0 {
      CollectedKidsFails(sh, n, k - 1, source, hidden, depth);
      CollectedFails(sh, n.kids[k - 1], source, hidden, depth);
    }
  }

  // The segments of a tree of any depth.
  function Found(sh: Shell, n: Node, source: string, hidden: bool): seq<Segment>
    requires WellFormed(n) && n.end <= |source|
    decreases n, |n.kids| + 1
  {
    if n.kind.Command? then CommandSegments(sh, n, source, hidden)
    else FoundInKids(sh, n, |n.kids|, source, hidden || HidesCommands(n.kind))
  }

  function FoundInKids(sh: Shell, n: Node, k: nat, source: string, hidden: bool): seq<Segment>
    requires WellFormed(n) && n.end <= |source| && k <= |n.kids|
    decreases n, k
  {
    if k == 0 then []
    else FoundInKids(sh, n, k - 1, source, hidden) + Found(sh, n.kids[k - 1], source, hidden)
  }

  // ---- segments are disjoint and in order --------------------------------------------

  ghost predicate IsSegment(sh: Shell, source: string, s: Segment) {
    s.start <= s.at < s.end <= |source| && s == SegmentAt(sh, source, s.start, s.end, s.at)
  }

  ghost predicate Within(sh: Shell, source: string, segments: seq<Segment>, lo: nat, hi: nat) {
    && (forall s :: s in segments ==> IsSegment(sh, source, s) && lo <= s.start && s.end <= hi)
    && (forall i, j :: 0 <= i < j < |segments| ==> segments[i].end <= segments[j].start)
  }

  lemma WithinJoined(sh: Shell, source: string, a: seq<Segment>, b: seq<Segment>, lo: nat, mid: nat, from: nat, hi: nat)
    requires lo <= mid <= from <= hi && Within(sh, source, a, lo, mid) && Within(sh, source, b, from, hi)
    ensures Within(sh, source, a + b, lo, hi)
  {
    forall i, j | 0 <= i < j < |a + b|
      ensures (a + b)[i].end <= (a + b)[j].start
    {
      if i < |a| <= j {
        assert a[i] in a && b[j - |a|] in b;
      }
    }
  }

  lemma {:induction false} FoundInOrder(sh: Shell, n: Node, source: string, hidden: bool)
    requires WellFormed(n) && n.end <= |source|
    ensures Within(sh, source, Found(sh, n, source, hidden), n.start, n.end)
    decreases n, |n.kids| + 1
  {
    if !n.kind.Command? {
      FoundInKidsInOrder(sh, n, |n.kids|, source, hidden || HidesCommands(n.kind));
    }
  }

  function EndOfKids(n: Node, k: nat): nat
    requires k <= |n.kids|
  {
    if k == 0 then n.start else n.kids[k - 1].end
  }

  lemma {:induction false} FoundInKidsInOrder(sh: Shell, n: Node, k: nat, source: string, hidden: bool)
    requires WellFormed(n) && n.end <= |source| && k <= |n.kids|
    ensures n.start <= EndOfKids(n, k) <= n.end
    ensures Within(sh, source, FoundInKids(sh, n, k, source, hidden), n.start, EndOfKids(n, k))
    decreases n, k
  {
    if k > 0 {
      var kid := n.kids[k - 1];
      FoundInKidsInOrder(sh, n, k - 1, source, hidden);
      FoundInOrder(sh, kid, source, hidden);
      assert EndOfKids(n, k - 1) <= kid.start by {
        if k >= 2 {
          assert n.kids[k - 2].end <= n.kids[k - 1].start;
        }
      }
      WithinJoined(sh, source, FoundInKids(sh, n, k - 1, source, hidden), Found(sh, kid, source, hidden),
                   n.start, EndOfKids(n, k - 1), kid.start, kid.end);
    }
  }

  // ---- which commands are found --------------------------------------------------------

  // c is a command below n, not inside another command, and with nothing above it that
  // hides commands.
  ghost predicate Exposes(n: Node, hidden: bool, c: Node) {
    if n.kind.Command? then !hidden && c == n
    else exists i :: 0 <= i < |n.kids| && Exposes(n.kids[i], hidden || HidesCommands(n.kind), c)
  }

  ghost predicate Contributes(sh: Shell, c: Node, source: string, s: Segment) {
    WellFormed(c) && c.end <= |source| && s in CommandSegments(sh, c, source, false)
  }

  lemma {:induction false} FoundFrom(sh: Shell, n: Node, source: string, hidden: bool, s: Segment) returns (c: Node)
    requires WellFormed(n) && n.end <= |source| && s in Found(sh, n, source, hidden)
    ensures Exposes(n, hidden, c) && Contributes(sh, c, source, s)
    decreases n, |n.kids| + 1
  {
    if n.kind.Command? {
      c := n;
    } else {
      var i;
      i, c := FoundInKidsFrom(sh, n, |n.kids|, source, hidden || HidesCommands(n.kind), s);
    }
  }

  lemma {:induction false} FoundInKidsFrom(sh: Shell, n: Node, k: nat, source: string, hidden: bool, s: Segment)
      returns (i: nat, c: Node)
    requires WellFormed(n) && n.end <= |source| && k <= |n.kids| && s in FoundInKids(sh, n, k, source, hidden)
    ensures i < k && Exposes(n.kids[i], hidden, c) && Contributes(sh, c, source, s)
    decreases n, k
  {
    if s in Found(sh, n.kids[k - 1], source, hidden) {
      i := k - 1;
      c := FoundFrom(sh, n.kids[k - 1], source, hidden, s);
    } else {
      i, c := FoundInKidsFrom(sh, n, k - 1, source, hidden, s);
    }
  }

  lemma {:induction false} FoundIfExposed(sh: Shell, n: Node, source: string, hidden: bool, c: Node, s: Segment)
    requires WellFormed(n) && n.end <= |source| && Exposes(n, hidden, c) && Contributes(sh, c, source, s)
    ensures s in Found(sh, n, source, hidden)
    decreases n
  {
    if !n.kind.Command? {
      var below := hidden || HidesCommands(n.kind);
      var i :| 0 <= i < |n.kids| && Exposes(n.kids[i], below, c);
      FoundIfExposed(sh, n.kids[i], source, below, c, s);
      KidIsCounted(sh, n, i, |n.kids|, source, below, s);
    }
  }

  lemma {:induction false} KidIsCounted(sh: Shell, n: Node, i: nat, k: nat, source: string, hidden: bool, s: Segment)
    requires WellFormed(n) && n.end <= |source| && i < k <= |n.kids| && s in Found(sh, n.kids[i], source, hidden)
    ensures s in FoundInKids(sh, n, k, source, hidden)
    decreases k
  {
    if i < k - 1 {
      KidIsCounted(sh, n, i, k - 1, source, hidden, s);
    }
  }

  // The segments are exactly the exposed commands that have a name and no dynamic
  // syntax inside.
  lemma FoundExactly(sh: Shell, n: Node, source: string, s: Segment)
    requires WellFormed(n) && n.end <= |source|
    ensures s in Found(sh, n, source, false)
       <==> exists c: Node :: Exposes(n, false, c) && Contributes(sh, c, source, s)
  {
    if s in Found(sh, n, source, false) {
      var c := FoundFrom(sh, n, source, false, s);
    }
    if c: Node :| Exposes(n, false, c) && Contributes(sh, c, source, s) {
      FoundIfExposed(sh, n, source, false, c, s);
    }
  }
}

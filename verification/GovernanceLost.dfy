// The two ways in which the hook fails on a heavy command instead of governing it.
module GovernanceLost {
  import opened Wrappers
  import opened Words
  import opened Paths
  import opened Classify
  import opened Parse
  import opened Analyses
  import opened Insertion
  import opened Rewriting
  import opened Hook
  import opened Governance

  // ---- one command in nested groups ------------------------------------------------------

  // { { make; }; } with k pairs of braces
  function Nested(k: nat): string {
    if k == 0 then "make" else "{ " + Nested(k - 1) + "; }"
  }

  predicate IsGroup(s: string) {
    |s| >= 5 && "{ " <= s && s[|s| - 3..] == "; }"
  }

  // The tree of such a text: one node for each pair of braces, and the command inside.
  function GroupNode(s: string, at: nat): (n: Node)
    ensures WellFormed(n) && n.start == at && n.end == at + |s|
    decreases |s|
  {
    if IsGroup(s) then
      Node(Other("compound_statement"), at, at + |s|, None, [GroupNode(s[2..|s| - 3], at + 2)])
    else Node(Kind.Command, at, at + |s|, if s == "" then None else Some(at), [])
  }

  function Program(s: string): Root {
    Node(Other("program"), 0, |s|, None, [GroupNode(s, 0)])
  }

  function ParseGroups(s: string): Option<Tree> {
    Some(Tree(Program(s), false))
  }

  function MakeTable(words: seq<string>): TableEntry {
    if words != [] && words[0] == "make" then Classification(Heavy, "tier1.make", "medium", false)
    else Classification(Unknown, "no-match", "low", false)
  }

  const GroupShell := Shell(ParseGroups, [], MakeTable)

  lemma NestedIsGroup(k: nat)
    requires k > 0
    ensures IsGroup(Nested(k)) && Nested(k)[2..|Nested(k)| - 3] == Nested(k - 1)
  {
  }

  lemma DepthOfOnly(n: Node)
    requires !n.kind.Command? && |n.kids| == 1
    ensures Depth(n) == 1 + Depth(n.kids[0])
  {
    assert DepthOfKids(n, 1) == Max(DepthOfKids(n, 0), 1 + Depth(n.kids[0]));
  }

  lemma {:induction false} NestedDepth(k: nat, at: nat)
    ensures Depth(GroupNode(Nested(k), at)) == k
  {
    if k > 0 {
      NestedIsGroup(k);
      NestedDepth(k - 1, at + 2);
      DepthOfOnly(GroupNode(Nested(k), at));
    }
  }

  lemma {:induction false} NestedText(k: nat)
    ensures |Nested(k)| == 4 + 5 * k
    ensures forall c :: c in Nested(k) ==> c in "{ make; }"
  {
    if k > 0 {
      NestedText(k - 1);
      assert Nested(k) == "{ " + Nested(k - 1) + "; }";
    }
  }

  lemma {:induction false} TextAbsent(s: string, pattern: string)
    requires pattern != "" && pattern[0] !in s
    ensures !ContainsText(s, pattern)
  {
    if s != "" {
      TextAbsent(s[1..], pattern);
    }
  }

  lemma NestedPasses(k: nat)
    requires 4 + 5 * k <= MAX_COMMAND_BYTES
    ensures !Refused(Nested(k))
  {
    NestedText(k);
    TextAbsent(Nested(k), "<<");
    TextAbsent(Nested(k), "$((");
  }

  // ---- make is heavy -------------------------------------------------------------------------

  lemma MakeSplits()
    ensures Split("make") == Some(["make"])
  {
    SplitPlain("make");
  }

  lemma MakeNormal()
    ensures NormalForm(["make"]) == Normalized.Command(["make"])
  {
    MakeIsACommand();
    NoAssignment("make");
  }

  const MakeSegment := SegmentAt(GroupShell, "make", 0, 4, 0)

  lemma MakeVerdict()
    ensures MakeSegment.verdict.kind == Heavy
  {
    MakeSplits();
    MakeNormal();
    assert MakeSegment.text == "make" && !IsBackground("make"[4..]);
    assert Classified(["make"], GroupShell.rules, GroupShell.tables) == MakeTable(["make"]);
    assert MakeSegment.verdict == Verdict(GroupShell, "make", false);
  }

  lemma MakeFound()
    ensures Collected(GroupShell, Program("make"), "make", false, 0) == Ok([MakeSegment])
  {
    var root := Program("make");
    var n := root.kids[0];
    assert n == Node(Kind.Command, 0, 4, Some(0), []);
    assert !HasDynamic(n);
    assert Collected(GroupShell, n, "make", false, 1) == Ok([MakeSegment]);
    assert CollectedKids(GroupShell, root, 0, "make", false, 1) == Ok([]);
    assert CollectedKids(GroupShell, root, 1, "make", false, 1) == Ok([MakeSegment]) by {
      assert [] + [MakeSegment] == [MakeSegment];
    }
    assert !HidesCommands(root.kind);
  }

  lemma MakeIsHeavy()
    ensures Analyzed(GroupShell, "make") == Ok(Supported([MakeSegment])) && HeavyCount([MakeSegment]) == 1
  {
    MakeVerdict();
    MakeFound();
    NestedPasses(0);
    assert SortByStart([MakeSegment]) == [MakeSegment];
    assert [MakeSegment][1..] == [];
  }

  // ---- the two failures ----------------------------------------------------------------------

  function GroupOptions(binary: Option<string>, rtk: Option<RtkDecision>): Options {
    Options(Claude, binary, GroupShell, true, rtk, (id: string) => id)
  }

  // Exactly the nested commands with more than 127 pairs of braces cannot be analysed.
  lemma NestedFails(k: nat)
    requires 4 + 5 * k <= MAX_COMMAND_BYTES
    ensures Analyzed(GroupShell, Nested(k)).Err? <==> k > 127
  {
    NestedPasses(k);
    NestedDepth(k, 0);
    DepthOfOnly(Program(Nested(k)));
    AnalysisFails(GroupShell, Nested(k));
  }

  // The command make, with denial of background work on, and an answer of the rewriter
  // that runs it in 128 nested groups: the hook fails, it neither governs nor refuses.
  lemma DeepAnswerLosesGovernance(binary: string, owner: string)
    ensures Analyzed(GroupShell, "make") == Ok(Supported([MakeSegment])) && HeavyCount([MakeSegment]) == 1
    ensures var o := GroupOptions(Some(binary), Some(Replace(Nested(128), false)));
            o.denyBackground && CandidateFails(o, "make") && Decide(o, "make", owner).Err?
  {
    var o := GroupOptions(Some(binary), Some(Replace(Nested(128), false)));
    MakeIsHeavy();
    NestedFails(128);
    NestedText(128);
    GovernanceKept(o, "make", [MakeSegment], owner);
  }

  // The same command without a rewriter, from an executable whose path is not UTF-8.
  lemma PathLosesGovernance(owner: string)
    ensures var o := GroupOptions(None, None);
            o.denyBackground && !CandidateFails(o, "make") && Decide(o, "make", owner) == Err(BinaryNotUtf8)
  {
    MakeIsHeavy();
    GovernanceKept(GroupOptions(None, None), "make", [MakeSegment], owner);
  }
}

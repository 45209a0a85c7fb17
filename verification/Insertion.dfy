// The governor prefix, and inserting it into a shell text.
module Insertion {
  import opened Wrappers
  import opened Words
  import opened Paths
  import opened Classify
  import opened Parse
  import opened Analyses

  // ---- the prefix ------------------------------------------------------------------

  predicate IsHexDigit(c: char) {
    '0' <= c <= '9' || 'a' <= c <= 'f' || 'A' <= c <= 'F'
  }

  // The first k hexadecimal digits of s.
  function HexDigits(s: string, k: nat): (t: string)
    ensures |t| <= k && forall c :: c in t ==> IsHexDigit(c)
    decreases |s|
  {
    if s == "" || k == 0 then ""
    else if IsHexDigit(s[0]) then [s[0]] + HexDigits(s[1..], k - 1)
    else HexDigits(s[1..], k)
  }

  function SafeOwner(owner: string): (safe: string)
    ensures safe != "" && |safe| <= 32 && forall c :: c in safe ==> IsPlain(c)
  {
    if HexDigits(owner, 32) == "" then "anonymous" else HexDigits(owner, 32)
  }

  // An owner of hexadecimal digits, as a digest gives it, is kept as it is; other characters
  // are dropped, and what has none of them is anonymous.
  lemma {:induction false} HexDigitsKept(owner: string, k: nat)
    requires |owner| <= k && forall c :: c in owner ==> IsHexDigit(c)
    ensures HexDigits(owner, k) == owner
  {
    if owner != "" {
      assert owner[0] in owner;
      HexDigitsKept(owner[1..], k - 1);
      assert [owner[0]] + owner[1..] == owner;
    }
  }

  lemma {:induction false} HexDigitsSkip(a: string, b: string, k: nat)
    requires forall c :: c in a ==> !IsHexDigit(c)
    ensures HexDigits(a + b, k) == HexDigits(b, k)
    decreases |a|
  {
    if a == "" {
      assert a + b == b;
    } else {
      assert (a + b)[0] == a[0] && (a + b)[1..] == a[1..] + b;
      HexDigitsSkip(a[1..], b, k);
    }
  }

  lemma OwnerKept(owner: string)
    requires forall c :: c in owner ==> '0' <= c <= '9' || 'a' <= c <= 'f' || 'A' <= c <= 'F'
    ensures 0 < |owner| <= 32 ==> SafeOwner(owner) == owner
    ensures owner == "" ==> SafeOwner(owner) == "anonymous"
  {
    if |owner| <= 32 {
      HexDigitsKept(owner, 32);
    }
  }

  function Prefix(binary: string, owner: string): (p: string)
    ensures p != ""
  {
    Quote(binary) + " run --pool heavy --owner " + SafeOwner(owner) + " -- "
  }

  function GovernorWords(binary: string, owner: string): seq<string> {
    [binary, "run", "--pool", "heavy", "--owner", SafeOwner(owner), "--"]
  }

  lemma AfterTwice(a: seq<string>, b: seq<string>, rest: Option<seq<string>>)
    ensures After(a, After(b, rest)) == After(a + b, rest)
  {
    if rest.Some? {
      assert a + (b + rest.value) == (a + b) + rest.value;
    }
  }

  lemma WordThen(words: seq<string>, text: string, v: string, s: string, more: seq<string>)
    requires Split(text) == After(words, Split(v + " " + s)) && more == words + [v]
    requires v != "" && forall c :: c in v ==> IsPlain(c)
    ensures Split(text) == After(more, Split(s))
  {
    SplitPlainThen(v, s);
    AfterTwice(words, [v], Split(s));
  }

  // The prefix is its seven words, whatever follows.
  lemma PrefixWords(binary: string, owner: string, s: string)
    ensures Split(Prefix(binary, owner) + s) == After(GovernorWords(binary, owner), Split(s))
  {
    var text := Prefix(binary, owner) + s;
    var safe := SafeOwner(owner);
    var w := GovernorWords(binary, owner);
    var s5 := safe + " " + ("--" + " " + s);
    var s4 := "--owner" + " " + s5;
    var s3 := "heavy" + " " + s4;
    var s2 := "--pool" + " " + s3;
    var s1 := "run" + " " + s2;
    PrefixText(binary, owner, s);
    SplitQuoteThen(binary, s1);
    WordThen([binary], text, "run", s2, w[..2]);
    WordThen(w[..2], text, "--pool", s3, w[..3]);
    WordThen(w[..3], text, "heavy", s4, w[..4]);
    WordThen(w[..4], text, "--owner", s5, w[..5]);
    WordThen(w[..5], text, safe, "--" + " " + s, w[..6]);
    WordThen(w[..6], text, "--", s, w);
  }

  lemma PrefixText(binary: string, owner: string, s: string)
    ensures Prefix(binary, owner) + s
         == Quote(binary) + " " + ("run" + " " + ("--pool" + " " + ("heavy" + " " + ("--owner" + " "
            + (SafeOwner(owner) + " " + ("--" + " " + s))))))
  {
    var safe := SafeOwner(owner);
    var rest := safe + " " + ("--" + " " + s);
    assert " -- " == " " + ("--" + " ");
    assert " run --pool heavy --owner " == " " + RunWords("");
    RegroupPrefix(Quote(binary), RunWords(""), safe, s);
    RunWordsThen(rest);
  }

  function RunWords(rest: string): string {
    "run" + " " + ("--pool" + " " + ("heavy" + " " + ("--owner" + " " + rest)))
  }

  lemma RunWordsThen(rest: string)
    ensures RunWords("") + rest == RunWords(rest)
  {
    assert ("--owner" + " " + "") + rest == "--owner" + " " + rest;
    assert RunWords("") + rest == "run" + " " + ("--pool" + " " + ("heavy" + " " + (("--owner" + " " + "") + rest)));
  }

  lemma RegroupPrefix(q: string, words: string, safe: string, s: string)
    ensures q + (" " + words) + safe + (" " + ("--" + " ")) + s
         == q + " " + (words + (safe + " " + ("--" + " " + s)))
  {
  }

  // ---- insertion -------------------------------------------------------------------

  predicate IsWrapped(s: Segment) {
    s.verdict.kind == Heavy && !s.verdict.wrapped
  }

  // The new text of a segment: the prefix where its executable starts.
  function NewText(s: Segment, prefix: string): string {
    if IsWrapped(s) && s.start <= s.at <= s.start + |s.text| then
      s.text[..s.at - s.start] + prefix + s.text[s.at - s.start..]
    else s.text
  }

  function NewTexts(segments: seq<Segment>, prefix: string): (ts: seq<string>)
    ensures |ts| == |segments| && forall i :: 0 <= i < |ts| ==> ts[i] == NewText(segments[i], prefix)
  {
    if segments == [] then [] else [NewText(segments[0], prefix)] + NewTexts(segments[1..], prefix)
  }

  function Offsets(segments: seq<Segment>): seq<nat> {
    if segments == [] then []
    else (if IsWrapped(segments[0]) then [segments[0].at] else []) + Offsets(segments[1..])
  }

  // Simultaneous insertion at ascending offsets, from a position of the source on.
  function Spliced(source: string, offsets: seq<nat>, prefix: string, cursor: nat): string
    requires Ascending(offsets, cursor, |source|)
  {
    if offsets == [] then source[cursor..]
    else source[cursor..offsets[0]] + prefix + Spliced(source, offsets[1..], prefix, offsets[0])
  }

  predicate Ascending(offsets: seq<nat>, lo: nat, hi: nat) {
    && lo <= hi
    && (forall i :: 0 <= i < |offsets| ==> lo <= offsets[i] <= hi)
    && (forall i, j :: 0 <= i < j < |offsets| ==> offsets[i] < offsets[j])
  }

  lemma AscendingTail(s: seq<nat>, lo: nat, hi: nat)
    requires s != [] && Ascending(s, lo, hi)
    ensures Ascending(s[1..], lo, hi) && Ascending(s[1..], s[0], hi)
  {
    forall i | 0 <= i < |s[1..]| ensures s[0] <= s[1..][i] <= hi {
      assert s[1..][i] == s[i + 1];
    }
  }

  // Sorting offsets, the largest first.
  function InsertDescending(x: nat, sorted: seq<nat>): seq<nat> {
    if sorted == [] || x >= sorted[0] then [x] + sorted else [sorted[0]] + InsertDescending(x, sorted[1..])
  }

  function SortDescending(s: seq<nat>): seq<nat> {
    if s == [] then [] else InsertDescending(s[0], SortDescending(s[1..]))
  }

  function Dedup(s: seq<nat>): seq<nat> {
    if |s| < 2 then s
    else if s[0] == s[1] then Dedup(s[1..])
    else [s[0]] + Dedup(s[1..])
  }

  function Reversed(s: seq<nat>): (r: seq<nat>)
    ensures |r| == |s| && forall i :: 0 <= i < |s| ==> r[i] == s[|s| - 1 - i]
  {
    if s == [] then [] else Reversed(s[1..]) + [s[0]]
  }

  lemma {:induction false} InsertAtEnd(x: nat, sorted: seq<nat>)
    requires forall y :: y in sorted ==> x < y
    ensures InsertDescending(x, sorted) == sorted + [x]
  {
    if sorted != [] {
      assert sorted[0] in sorted;
      forall y | y in sorted[1..] ensures x < y {
        assert y in sorted;
      }
      InsertAtEnd(x, sorted[1..]);
      assert sorted == [sorted[0]] + sorted[1..];
    }
  }

  lemma {:induction false} SortReverses(s: seq<nat>, lo: nat, hi: nat)
    requires Ascending(s, lo, hi)
    ensures SortDescending(s) == Reversed(s)
  {
    if s != [] {
      AscendingTail(s, lo, hi);
      SortReverses(s[1..], lo, hi);
      forall y | y in Reversed(s[1..]) ensures s[0] < y {
        var i :| 0 <= i < |s| - 1 && Reversed(s[1..])[i] == y;
        assert y == s[1..][|s| - 2 - i];
      }
      InsertAtEnd(s[0], Reversed(s[1..]));
    }
  }

  lemma {:induction false} NothingToDedup(s: seq<nat>)
    requires forall i :: 0 <= i < |s| - 1 ==> s[i] != s[i + 1]
    ensures Dedup(s) == s
  {
    if |s| >= 2 {
      assert s[0] != s[0 + 1];
      forall i | 0 <= i < |s[1..]| - 1 ensures s[1..][i] != s[1..][i + 1] {
        assert s[i + 1] != s[i + 1 + 1];
      }
      NothingToDedup(s[1..]);
    }
  }

  // Sorting, dedup included, only reverses the offsets.
  lemma OffsetsReversed(s: seq<nat>, lo: nat, hi: nat)
    requires Ascending(s, lo, hi)
    ensures Dedup(SortDescending(s)) == Reversed(s)
  {
    SortReverses(s, lo, hi);
    var r := Reversed(s);
    forall i | 0 <= i < |r| - 1 ensures r[i] != r[i + 1] {
      assert s[|s| - 2 - i] < s[|s| - 1 - i];
    }
    NothingToDedup(r);
  }

  // Text before the first insertion is text of the source.
  lemma SplicedHead(source: string, offsets: seq<nat>, prefix: string, cursor: nat, mid: nat)
    requires cursor <= mid && Ascending(offsets, mid, |source|)
    ensures Ascending(offsets, cursor, |source|)
    ensures Spliced(source, offsets, prefix, cursor) == source[cursor..mid] + Spliced(source, offsets, prefix, mid)
  {
    if offsets == [] {
      assert source[cursor..] == source[cursor..mid] + source[mid..];
    } else {
      AscendingTail(offsets, mid, |source|);
      SliceInTwo(source, cursor, mid, offsets[0]);
      Regroup(source[cursor..mid], source[mid..offsets[0]], prefix, Spliced(source, offsets[1..], prefix, offsets[0]));
    }
  }

  lemma SliceInTwo(source: string, from: nat, mid: nat, to: nat)
    requires from <= mid <= to <= |source|
    ensures source[from..to] == source[from..mid] + source[mid..to]
  {
  }

  lemma Regroup(a: string, b: string, c: string, d: string)
    ensures a + b + c + d == a + (b + c + d)
  {
  }

  // One insertion before all others, and its removal.
  lemma InsertBefore(source: string, offsets: seq<nat>, prefix: string)
    requires offsets != [] && Ascending(offsets, 0, |source|)
    ensures Ascending(offsets[1..], 0, |source|)
    ensures var rest := Spliced(source, offsets[1..], prefix, 0);
            var all := Spliced(source, offsets, prefix, 0);
            && offsets[0] <= |rest| && offsets[0] + |prefix| <= |all|
            && all == rest[..offsets[0]] + prefix + rest[offsets[0]..]
            && rest == all[..offsets[0]] + all[offsets[0] + |prefix|..]
  {
    var o := offsets[0];
    SplicedHead(source, offsets[1..], prefix, 0, o);
    var rest := Spliced(source, offsets[1..], prefix, 0);
    var tail := Spliced(source, offsets[1..], prefix, o);
    assert rest == source[0..o] + tail;
    assert rest[..o] == source[0..o] && rest[o..] == tail;
    var all := Spliced(source, offsets, prefix, 0);
    assert all == source[0..o] + prefix + tail;
    assert all[..o] == source[0..o] && all[o + |prefix|..] == tail;
  }

  // Removing |prefix| bytes at each offset, first to last.
  function Unspliced(text: string, offsets: seq<nat>, length: nat): Option<string>
    decreases |offsets|
  {
    if offsets == [] then Some(text)
    else if offsets[0] + length > |text| then None
    else Unspliced(text[..offsets[0]] + text[offsets[0] + length..], offsets[1..], length)
  }

  lemma {:induction false} UnsplicedSource(source: string, offsets: seq<nat>, prefix: string)
    requires Ascending(offsets, 0, |source|)
    ensures Unspliced(Spliced(source, offsets, prefix, 0), offsets, |prefix|) == Some(source)
  {
    if offsets != [] {
      InsertBefore(source, offsets, prefix);
      UnsplicedSource(source, offsets[1..], prefix);
    }
  }

  // From the back to the front, so that an insertion leaves the offsets still to come valid.
  method InsertAll(source: string, descending: seq<nat>, prefix: string, ghost offsets: seq<nat>)
      returns (command: string)
    requires Ascending(offsets, 0, |source|) && descending == Reversed(offsets)
    ensures command == Spliced(source, offsets, prefix, 0)
  {
    command := source;
    assert source[0..] == source;
    for k := 0 to |descending|
      invariant Ascending(offsets[|offsets| - k..], 0, |source|)
      invariant command == Spliced(source, offsets[|offsets| - k..], prefix, 0)
    {
      ghost var now := offsets[|offsets| - k - 1..];
      assert now[1..] == offsets[|offsets| - k..] && now[0] == descending[k];
      InsertBefore(source, now, prefix);
      command := command[..descending[k]] + prefix + command[descending[k]..];
    }
    assert offsets[0..] == offsets;
  }

  // ---- insertion and segments ------------------------------------------------------

  lemma {:induction false} OffsetsAscend(source: string, segments: seq<Segment>, cursor: nat)
    requires Spans(source, segments, cursor)
    ensures Ascending(Offsets(segments), cursor, |source|)
  {
    if segments != [] {
      OffsetsAscend(source, segments[1..], segments[0].end);
    }
  }

  // Inserting at the offsets is replacing each heavy text inside an unchanged frame.
  lemma {:induction false} SplicedIsWoven(source: string, segments: seq<Segment>, cursor: nat, prefix: string)
    requires Spans(source, segments, cursor)
    ensures Ascending(Offsets(segments), cursor, |source|)
    ensures var frame := Frame(source, segments, cursor);
            && frame.Some? && |frame.value| == |segments| + 1
            && Spliced(source, Offsets(segments), prefix, cursor) == Weave(frame.value, NewTexts(segments, prefix))
  {
    OffsetsAscend(source, segments, cursor);
    FrameRebuilds(source, segments, cursor);
    if segments != [] {
      var s, rest := segments[0], segments[1..];
      FrameRebuilds(source, rest, s.end);
      SplicedIsWoven(source, rest, s.end, prefix);
      var frame := Frame(source, rest, s.end).value;
      assert ([source[cursor..s.start]] + frame)[1..] == frame;
      assert ([NewText(s, prefix)] + NewTexts(rest, prefix))[1..] == NewTexts(rest, prefix);
      SplicedSegment(source, segments, cursor, prefix);
    }
  }

  lemma SplicedInside(source: string, s: Segment, offsets: seq<nat>, cursor: nat, prefix: string)
    requires cursor <= s.start <= s.at < s.end && Ascending(offsets, s.end, |source|)
    requires s.text == source[s.start..s.end]
    ensures Ascending([s.at] + offsets, cursor, |source|)
    ensures Spliced(source, [s.at] + offsets, prefix, cursor)
         == source[cursor..s.start] + (s.text[..s.at - s.start] + prefix + s.text[s.at - s.start..])
            + Spliced(source, offsets, prefix, s.end)
  {
    assert ([s.at] + offsets)[1..] == offsets;
    SplicedHead(source, offsets, prefix, s.at, s.end);
    TextInTwo(source, s);
    SliceInTwo(source, cursor, s.start, s.at);
    RegroupInsertion(source[cursor..s.start], source[s.start..s.at], prefix, source[s.at..s.end],
                     Spliced(source, offsets, prefix, s.end));
  }

  lemma SplicedSegment(source: string, segments: seq<Segment>, cursor: nat, prefix: string)
    requires segments != [] && Spans(source, segments, cursor)
    requires Ascending(Offsets(segments[1..]), segments[0].end, |source|)
    ensures Ascending(Offsets(segments), cursor, |source|)
    ensures Spliced(source, Offsets(segments), prefix, cursor)
         == source[cursor..segments[0].start] + NewText(segments[0], prefix)
            + Spliced(source, Offsets(segments[1..]), prefix, segments[0].end)
  {
    var s, offsets := segments[0], Offsets(segments[1..]);
    if IsWrapped(s) {
      SplicedInside(source, s, offsets, cursor, prefix);
    } else {
      assert Offsets(segments) == offsets;
      SplicedHead(source, offsets, prefix, cursor, s.end);
      SliceInTwo(source, cursor, s.start, s.end);
    }
  }

  lemma RegroupInsertion(head: string, left: string, prefix: string, right: string, tail: string)
    ensures head + left + prefix + (right + tail) == head + (left + prefix + right) + tail
  {
  }

  lemma TextInTwo(source: string, s: Segment)
    requires s.start <= s.at < s.end <= |source| && s.text == source[s.start..s.end]
    ensures |s.text| == s.end - s.start
    ensures s.text[..s.at - s.start] == source[s.start..s.at] && s.text[s.at - s.start..] == source[s.at..s.end]
  {
  }
}

// Command classification: stripping wrappers, custom rules, tool tables.
module Classify {
  import opened Wrappers
  import opened Paths

  // ---- assignments ---------------------------------------------------------------

  predicate IsLetter(c: char) {
    'a' <= c <= 'z' || 'A' <= c <= 'Z'
  }

  predicate IsNameChar(c: char, first: bool) {
    c == '_' || IsLetter(c) || ('0' <= c <= '9' && !first)
  }

  function Equals(s: string): (k: nat)
    ensures k <= |s| && (k < |s| ==> s[k] == '=')
    ensures forall i :: 0 <= i < k ==> s[i] != '='
  {
    if s == "" || s[0] == '=' then 0 else 1 + Equals(s[1..])
  }

  // NAME=value with a shell variable name
  predicate IsAssignment(s: string) {
    var k := Equals(s);
    0 < k < |s| && forall i :: 0 <= i < k ==> IsNameChar(s[i], i == 0)
  }

  lemma PathIsNoAssignment(s: string)
    requires s != "" && s[0] == '/'
    ensures !IsAssignment(s)
  {
    assert !IsNameChar(s[0], 0 == 0);
  }

  // ---- wrappers ------------------------------------------------------------------

  datatype Normalized = Command(words: seq<string>) | AlreadyWrapped | UnsafeWrapper

  predicate IsDashes(s: string) {
    s == "--"
  }

  predicate IsOption(s: string) {
    s != "" && s[0] == '-'
  }

  predicate IsEnvWord(s: string) {
    IsOption(s) || IsAssignment(s)
  }

  function Drop(p: string -> bool, argv: seq<string>): (rest: seq<string>)
    ensures |rest| <= |argv|
    ensures rest != [] ==> !p(rest[0])
  {
    if argv != [] && p(argv[0]) then Drop(p, argv[1..]) else argv
  }

  function DropNice(argv: seq<string>): (rest: seq<string>)
    ensures |rest| <= |argv|
  {
    if argv == [] then []
    else if argv[0] == "-n" then (if |argv| >= 2 then argv[2..] else [])
    else if "-n" <= argv[0] then argv[1..]
    else argv
  }

  predicate IsShell(name: string) {
    name == "sudo" || name == "xargs" || name == "bash" || name == "sh" || name == "zsh"
  }

  // What remains after one transparent wrapper; None for a name that is not one.
  function Unwrapped(name: string, args: seq<string>): (rest: Option<seq<string>>)
    ensures rest.Some? ==> |rest.value| <= |args|
  {
    if name == "rtk" || name == "command" then Some(Drop(IsDashes, args))
    else if name == "time" then Some(Drop(IsOption, args))
    else if name == "nice" then Some(DropNice(args))
    else if name == "env" then Some(Drop(IsEnvWord, args))
    else None
  }

  function Strip(argv: seq<string>): Normalized
    decreases |argv|
  {
    if argv == [] then Command([])
    else
      var name := Basename(argv[0]);
      if name == "agent-gov" && |argv| >= 2 && argv[1] == "run" then AlreadyWrapped
      else if IsShell(name) then UnsafeWrapper
      else
        match Unwrapped(name, argv[1..])
        case Some(rest) => Strip(rest)
        case None => Command(argv)
  }

  // The part of an argument list that classification looks at.
  function NormalForm(argv: seq<string>): Normalized {
    Strip(Drop(IsAssignment, argv))
  }

  function Rest(argv: seq<string>, index: nat): seq<string> {
    if index <= |argv| then argv[index..] else []
  }

  // The first position from start on whose word does not satisfy p.
  method Skip(p: string -> bool, argv: seq<string>, start: nat) returns (index: nat)
    ensures start <= index && (start <= |argv| ==> index <= |argv|) && (start > |argv| ==> index == start)
    ensures Rest(argv, index) == Drop(p, Rest(argv, start))
  {
    index := start;
    while index < |argv| && p(argv[index])
      invariant start <= index && (start <= |argv| ==> index <= |argv|) && (start > |argv| ==> index == start)
      invariant Drop(p, Rest(argv, index)) == Drop(p, Rest(argv, start))
    {
      assert argv[index..][1..] == argv[index + 1..];
      index := index + 1;
    }
  }

  // The index may run one past the end (nice -n with nothing after it).
  method SkipWrapper(name: string, argv: seq<string>, at: nat) returns (index: nat)
    requires at < |argv| && Unwrapped(name, argv[at + 1..]).Some?
    ensures at < index <= |argv| + 1
    ensures Unwrapped(name, argv[at + 1..]) == Some(Rest(argv, index))
  {
    index := at + 1;
    if name == "rtk" || name == "command" {
      index := Skip(IsDashes, argv, index);
    } else if name == "time" {
      index := Skip(IsOption, argv, index);
    } else if name == "nice" {
      if index < |argv| {
        assert argv[index..][0] == argv[index];
        if argv[index] == "-n" {
          index := index + 2;
        } else if "-n" <= argv[index] {
          index := index + 1;
        }
      }
    } else {
      index := Skip(IsEnvWord, argv, index);
    }
  }

  method Normalize(argv: seq<string>) returns (r: Normalized)
    ensures r == NormalForm(argv)
  {
    var index := Skip(IsAssignment, argv, 0);
    assert argv[0..] == argv;
    while true
      invariant index <= |argv| + 1
      invariant Strip(Rest(argv, index)) == NormalForm(argv)
      decreases |argv| + 1 - index
    {
      if index >= |argv| {
        return Command([]);
      }
      var name := Basename(argv[index]);
      assert argv[index..][1..] == argv[index + 1..];
      if name == "agent-gov" && index + 1 < |argv| && argv[index + 1] == "run" {
        return AlreadyWrapped;
      }
      if IsShell(name) {
        return UnsafeWrapper;
      }
      if Unwrapped(name, argv[index + 1..]) == None {
        return Command(argv[index..]);
      }
      index := SkipWrapper(name, argv, index);
    }
  }

  // ---- facts about wrappers ------------------------------------------------------

  predicate IsSuffix(tail: seq<string>, s: seq<string>) {
    |tail| <= |s| && s[|s| - |tail|..] == tail
  }

  lemma TailIsSuffix(s: seq<string>)
    ensures IsSuffix(s, s) && IsSuffix([], s) && (s != [] ==> IsSuffix(s[1..], s))
  {
  }

  lemma SuffixOfSuffix(a: seq<string>, b: seq<string>, c: seq<string>)
    requires IsSuffix(a, b) && IsSuffix(b, c)
    ensures IsSuffix(a, c)
  {
    assert c[|c| - |a|..] == c[|c| - |b|..][|b| - |a|..];
  }

  lemma {:induction false} DropSuffix(p: string -> bool, argv: seq<string>)
    ensures IsSuffix(Drop(p, argv), argv)
  {
    if argv != [] && p(argv[0]) {
      DropSuffix(p, argv[1..]);
      SuffixOfSuffix(Drop(p, argv[1..]), argv[1..], argv);
    }
  }

  lemma DropNiceSuffix(argv: seq<string>)
    ensures IsSuffix(DropNice(argv), argv)
  {
    TailIsSuffix(argv);
    if |argv| >= 2 {
      assert argv[|argv| - |argv[2..]|..] == argv[2..];
    }
  }

  lemma UnwrappedSuffix(name: string, args: seq<string>)
    ensures Unwrapped(name, args).Some? ==> IsSuffix(Unwrapped(name, args).value, args)
  {
    DropSuffix(IsDashes, args);
    DropSuffix(IsOption, args);
    DropSuffix(IsEnvWord, args);
    DropNiceSuffix(args);
  }

  // A command that is classified is the tail of the words given.
  lemma {:induction false} StripSuffix(argv: seq<string>)
    ensures Strip(argv).Command? ==> IsSuffix(Strip(argv).words, argv)
    decreases |argv|
  {
    TailIsSuffix(argv);
    if argv != [] && Unwrapped(Basename(argv[0]), argv[1..]).Some? {
      var rest := Unwrapped(Basename(argv[0]), argv[1..]).value;
      StripSuffix(rest);
      UnwrappedSuffix(Basename(argv[0]), argv[1..]);
      RestSuffix(argv, rest);
    }
  }

  lemma RestSuffix(argv: seq<string>, rest: seq<string>)
    requires argv != [] && IsSuffix(rest, argv[1..])
    ensures Strip(rest).Command? && IsSuffix(Strip(rest).words, rest) ==> IsSuffix(Strip(rest).words, argv)
  {
    TailIsSuffix(argv);
    SuffixOfSuffix(rest, argv[1..], argv);
    if Strip(rest).Command? && IsSuffix(Strip(rest).words, rest) {
      SuffixOfSuffix(Strip(rest).words, rest, argv);
    }
  }

  lemma NormalFormSuffix(argv: seq<string>)
    ensures NormalForm(argv).Command? ==> IsSuffix(NormalForm(argv).words, argv)
  {
    DropSuffix(IsAssignment, argv);
    StripSuffix(Drop(IsAssignment, argv));
    if NormalForm(argv).Command? {
      SuffixOfSuffix(NormalForm(argv).words, Drop(IsAssignment, argv), argv);
    }
  }

  // What is classified is neither empty by accident nor a wrapper itself.
  lemma {:induction false} StripDone(argv: seq<string>)
    ensures Strip(argv).Command? && Strip(argv).words != [] ==>
              var w := Strip(argv).words;
              !IsShell(Basename(w[0])) && Unwrapped(Basename(w[0]), w[1..]) == None && Strip(w) == Strip(argv)
    decreases |argv|
  {
    if argv != [] && Unwrapped(Basename(argv[0]), argv[1..]).Some? {
      StripDone(Unwrapped(Basename(argv[0]), argv[1..]).value);
    }
  }

  ghost predicate AllAssignments(ws: seq<string>) {
    forall w :: w in ws ==> IsAssignment(w)
  }

  lemma {:induction false} DropAssignments(before: seq<string>, rest: seq<string>)
    requires AllAssignments(before)
    ensures Drop(IsAssignment, before + rest) == Drop(IsAssignment, rest)
  {
    if before == [] {
      assert before + rest == rest;
    } else {
      assert (before + rest)[1..] == before[1..] + rest;
      DropAssignments(before[1..], rest);
    }
  }

  lemma NotDropped(p: string -> bool, argv: seq<string>)
    requires argv == [] || !p(argv[0])
    ensures Drop(p, argv) == argv
  {
  }

  // Adding the word rtk in front of a command leaves what is classified alone exactly
  // when the command does not start with "--", or the added word reads as another
  // assignment.
  lemma RtkPrefixKeepsNormalForm(before: seq<string>, token: string, rest: seq<string>)
    requires AllAssignments(before) && (rest == [] || !IsAssignment(rest[0]))
    requires FileName(token) == Some("rtk")
    ensures NormalForm(before + [token] + rest) == NormalForm(before + rest)
       <==> IsAssignment(token) || rest == [] || rest[0] != "--"
  {
    assert before + [token] + rest == before + ([token] + rest);
    DropAssignments(before, [token] + rest);
    DropAssignments(before, rest);
    NotDropped(IsAssignment, rest);
    assert ([token] + rest)[1..] == rest;
    if !IsAssignment(token) {
      NotDropped(IsAssignment, [token] + rest);
      assert Strip([token] + rest) == Strip(Drop(IsDashes, rest));
      if rest != [] && rest[0] == "--" {
        DashesAreACommand(rest);
        StripSuffix(Drop(IsDashes, rest));
      }
    }
  }

  lemma DashesAreACommand(rest: seq<string>)
    requires rest != [] && rest[0] == "--"
    ensures Strip(rest) == Command(rest)
    ensures |Drop(IsDashes, rest)| < |rest|
  {
    SlashFree("--");
    assert Drop(IsDashes, rest) == Drop(IsDashes, rest[1..]);
  }

  lemma MakeIsACommand()
    ensures Strip(["make"]) == Command(["make"])
  {
    SlashFree("make");
    assert ["make"][1..] == [];
  }

  lemma RtkThenDashes()
    ensures Strip(["rtk", "--", "make"]) == Strip(["make"])
  {
    var argv := ["rtk", "--", "make"];
    SlashFree("rtk");
    assert argv[1..] == ["--", "make"] && argv[1..][1..] == ["make"];
    assert !IsDashes("make") by {
      assert "make"[0] != '-';
    }
    assert Drop(IsDashes, argv[1..]) == Drop(IsDashes, ["make"]) == ["make"];
  }

  lemma NoAssignment(s: string)
    requires '=' !in s
    ensures !IsAssignment(s)
  {
  }

  // What putting rtk in front may hide: "-- make" is the command "--", but
  // "rtk -- make" is the command make.
  lemma DashesLost()
    ensures NormalForm(["--", "make"]) == Command(["--", "make"])
    ensures NormalForm(["rtk", "--", "make"]) == Command(["make"])
  {
    NoAssignment("--");
    NoAssignment("rtk");
    DashesAreACommand(["--", "make"]);
    RtkThenDashes();
    MakeIsACommand();
  }

  // The governor's own prefix is recognised exactly when the binary is called
  // agent-gov and its path does not read as an assignment.
  lemma GovernedIsRecognised(before: seq<string>, binary: string, rest: seq<string>)
    requires AllAssignments(before)
    ensures NormalForm(before + [binary, "run", "--pool"] + rest) == AlreadyWrapped
       <==> !IsAssignment(binary) && Basename(binary) == "agent-gov"
  {
    var tail := [binary, "run", "--pool"] + rest;
    assert before + [binary, "run", "--pool"] + rest == before + tail;
    DropAssignments(before, tail);
    var args := ["run", "--pool"] + rest;
    assert tail[1..] == args;
    RunIsACommand(args);
    if IsAssignment(binary) {
      assert Drop(IsAssignment, tail) == Drop(IsAssignment, args) == args;
    } else {
      assert Drop(IsAssignment, tail) == tail;
    }
  }

  lemma RunIsACommand(args: seq<string>)
    requires args != [] && args[0] == "run"
    ensures Strip(args) == Command(args) && Drop(IsAssignment, args) == args
    ensures forall name: string :: Unwrapped(name, args).Some? ==> Unwrapped(name, args).value == args
  {
    SlashFree("run");
    assert Equals("run") == 3;
  }

  // ---- classification --------------------------------------------------------------

  datatype Class = Light | Heavy | Service | Unknown | UnsafeBackgroundHeavy

  datatype Classification = Classification(kind: Class, rule: string, confidence: string, wrapped: bool)

  // What a custom rule may ask for.
  type RuleClass = c: Class | c in {Light, Heavy, Service} witness Heavy

  datatype Rule = Rule(id: string, prefix: seq<string>, kind: RuleClass)

  // What the tool tables give: never the background class, never "already wrapped".
  type TableEntry = c: Classification | c.kind != UnsafeBackgroundHeavy && !c.wrapped
    witness Classification(Unknown, "no-match", "low", false)

  type Tables = seq<string> -> TableEntry

  function FirstRule(rules: seq<Rule>, words: seq<string>): (r: Option<Rule>)
    ensures r.Some? ==> r.value in rules && r.value.prefix <= words
    ensures r == None ==> forall rule :: rule in rules ==> !(rule.prefix <= words)
  {
    if rules == [] then None
    else if rules[0].prefix <= words then Some(rules[0])
    else FirstRule(rules[1..], words)
  }

  function ClassifyNormal(n: Normalized, rules: seq<Rule>, tables: Tables): (c: Classification)
    ensures c.wrapped <==> n == AlreadyWrapped
    ensures c.wrapped ==> c.kind == Light
    ensures c.kind != UnsafeBackgroundHeavy
  {
    match n
    case AlreadyWrapped => Classification(Light, "governor.reentrant", "high", true)
    case UnsafeWrapper => Classification(Unknown, "wrapper.unsupported", "low", false)
    case Command(words) =>
      match FirstRule(rules, words)
      case Some(rule) => Classification(rule.kind, rule.id, "user", false)
      case None => if words == [] then Classification(Unknown, "empty", "low", false) else tables(words)
  }

  // classify_argv
  function Classified(argv: seq<string>, rules: seq<Rule>, tables: Tables): (c: Classification)
    ensures c.wrapped ==> c.kind == Light
    ensures c.kind != UnsafeBackgroundHeavy
  {
    ClassifyNormal(NormalForm(argv), rules, tables)
  }

  method ClassifyArgv(argv: seq<string>, rules: seq<Rule>, tables: Tables) returns (c: Classification)
    ensures c == Classified(argv, rules, tables)
  {
    var n := Normalize(argv);
    match n {
      case AlreadyWrapped =>
        return Classification(Light, "governor.reentrant", "high", true);
      case UnsafeWrapper =>
        return Classification(Unknown, "wrapper.unsupported", "low", false);
      case Command(words) =>
        for i := 0 to |rules|
          invariant FirstRule(rules, words) == FirstRule(rules[i..], words)
        {
          assert rules[i..][1..] == rules[i + 1..];
          if rules[i].prefix <= words {
            return Classification(rules[i].kind, rules[i].id, "user", false);
          }
        }
        assert rules[|rules|..] == [];
        if words == [] {
          return Classification(Unknown, "empty", "low", false);
        }
        return tables(words);
    }
  }
}

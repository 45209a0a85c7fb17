// What classification looks through, what it stops at, and which rule wins.
module ClassifyFacts {
  import opened Wrappers
  import opened Paths
  import opened Classify

  // ---- assignments ---------------------------------------------------------------------------

  predicate NameCharacter(c: char) {
    c == '_' || 'a' <= c <= 'z' || 'A' <= c <= 'Z' || '0' <= c <= '9'
  }

  // A variable name, an equals sign, and anything.
  ghost predicate Assigns(s: string, k: nat) {
    && 0 < k < |s| && s[k] == '=' && (forall i :: 0 <= i < k ==> NameCharacter(s[i])) && !('0' <= s[0] <= '9')
  }

  lemma AssignmentExactly(s: string)
    ensures IsAssignment(s) <==> exists k: nat :: Assigns(s, k)
  {
    if IsAssignment(s) {
      assert Assigns(s, Equals(s));
    }
    if k: nat :| Assigns(s, k) {
      assert Equals(s) <= k;
      assert Equals(s) == k by {
        if Equals(s) < k {
          assert NameCharacter(s[Equals(s)]);
        }
      }
    }
  }

  // ---- wrappers -------------------------------------------------------------------------------

  predicate Dashed(s: string) {
    s != "" && s[0] == '-'
  }

  // The words a wrapper takes for itself, in front of the command it runs.
  ghost predicate Takes(name: string, taken: seq<string>, rest: seq<string>) {
    match name
    case "rtk" => (forall w :: w in taken ==> w == "--") && (rest != [] ==> rest[0] != "--")
    case "command" => (forall w :: w in taken ==> w == "--") && (rest != [] ==> rest[0] != "--")
    case "time" => (forall w :: w in taken ==> Dashed(w)) && (rest != [] ==> !Dashed(rest[0]))
    case "env" =>
      && (forall w :: w in taken ==> Dashed(w) || IsAssignment(w))
      && (rest != [] ==> !Dashed(rest[0]) && !IsAssignment(rest[0]))
    case "nice" =>
      || (|taken| == 2 && taken[0] == "-n")
      || (taken == ["-n"] && rest == [])
      || (|taken| == 1 && "-n" <= taken[0] && taken[0] != "-n")
      || (taken == [] && (rest != [] ==> !("-n" <= rest[0])))
    case _ => false
  }

  lemma {:induction false} Dropped(p: string -> bool, taken: seq<string>, rest: seq<string>)
    requires (forall w :: w in taken ==> p(w)) && (rest != [] ==> !p(rest[0]))
    ensures Drop(p, taken + rest) == rest
  {
    if taken == [] {
      assert taken + rest == rest;
    } else {
      assert (taken + rest)[1..] == taken[1..] + rest;
      Dropped(p, taken[1..], rest);
    }
  }

  lemma {:induction false} DropSplits(p: string -> bool, args: seq<string>)
      returns (taken: seq<string>, rest: seq<string>)
    ensures args == taken + rest && (forall w :: w in taken ==> p(w)) && (rest != [] ==> !p(rest[0]))
  {
    if args != [] && p(args[0]) {
      taken, rest := DropSplits(p, args[1..]);
      taken := [args[0]] + taken;
    } else {
      taken, rest := [], args;
    }
  }

  lemma NiceTakes(taken: seq<string>, rest: seq<string>)
    requires Takes("nice", taken, rest)
    ensures DropNice(taken + rest) == rest
  {
    var args := taken + rest;
    if |taken| == 2 {
      assert args[2..] == rest;
    } else if |taken| == 1 {
      assert args[1..] == rest;
    } else {
      assert args == rest;
    }
  }

  lemma NiceSplits(args: seq<string>) returns (taken: seq<string>, rest: seq<string>)
    ensures args == taken + rest && Takes("nice", taken, rest)
  {
    if args != [] && args[0] == "-n" {
      var n := if |args| >= 2 then 2 else 1;
      taken, rest := args[..n], args[n..];
      assert n == 1 ==> taken == ["-n"];
    } else if args != [] && "-n" <= args[0] {
      taken, rest := args[..1], args[1..];
    } else {
      taken, rest := [], args;
    }
  }

  lemma UnwrappedTakes(name: string, taken: seq<string>, rest: seq<string>)
    requires Takes(name, taken, rest)
    ensures Unwrapped(name, taken + rest) == Some(rest)
  {
    match name {
      case "rtk" => Dropped(IsDashes, taken, rest);
      case "command" => Dropped(IsDashes, taken, rest);
      case "time" => Dropped(IsOption, taken, rest);
      case "env" => Dropped(IsEnvWord, taken, rest);
      case "nice" => NiceTakes(taken, rest);
      case _ =>
    }
  }

  // A wrapper is looked through: what it runs is classified.
  lemma LooksThrough(word: string, taken: seq<string>, rest: seq<string>)
    requires Takes(Basename(word), taken, rest)
    ensures Strip([word] + taken + rest) == Strip(rest)
  {
    var argv := [word] + taken + rest;
    UnwrappedTakes(Basename(word), taken, rest);
    assert argv[0] == word && argv[1..] == taken + rest;
    NotOpaque(Basename(word), taken, rest);
  }

  predicate IsTransparent(name: string) {
    name == "rtk" || name == "command" || name == "time" || name == "nice" || name == "env"
  }

  lemma NotOpaque(name: string, taken: seq<string>, rest: seq<string>)
    requires Takes(name, taken, rest)
    ensures IsTransparent(name) && name != "agent-gov" && !IsShell(name)
  {
  }

  // Whatever follows the name of a wrapper is words it takes and a command.
  lemma WrapperSplits(name: string, args: seq<string>) returns (taken: seq<string>, rest: seq<string>)
    requires IsTransparent(name)
    ensures args == taken + rest && Takes(name, taken, rest)
  {
    if name == "nice" {
      taken, rest := NiceSplits(args);
    } else if name == "time" {
      taken, rest := DropSplits(IsOption, args);
    } else if name == "env" {
      taken, rest := DropSplits(IsEnvWord, args);
    } else {
      taken, rest := DropSplits(IsDashes, args);
    }
  }

  // Everything else is not looked through: the governor's own run, programs that run
  // commands in ways nobody can see into, and commands.
  lemma StopsAt(word: string, args: seq<string>)
    requires !IsTransparent(Basename(word))
    ensures Strip([word] + args)
         == if Basename(word) == "agent-gov" && args != [] && args[0] == "run" then AlreadyWrapped
            else if Basename(word) in {"sudo", "xargs", "bash", "sh", "zsh"} then UnsafeWrapper
            else Command([word] + args)
  {
    var argv := [word] + args;
    assert argv[0] == word && argv[1..] == args;
    assert args != [] ==> argv[1] == args[0];
  }

  // Assignments in front are looked through as well.
  lemma AssignmentsSkipped(before: seq<string>, rest: seq<string>)
    requires (forall w :: w in before ==> IsAssignment(w)) && (rest != [] ==> !IsAssignment(rest[0]))
    ensures NormalForm(before + rest) == Strip(rest)
  {
    Dropped(IsAssignment, before, rest);
  }

  // ---- rules ------------------------------------------------------------------------------------

  // Rule i is the first whose prefix starts the words.
  ghost predicate FirstMatch(rules: seq<Rule>, words: seq<string>, i: nat) {
    && i < |rules| && rules[i].prefix <= words
    && forall j :: 0 <= j < i ==> !(rules[j].prefix <= words)
  }

  lemma {:induction false} FirstRuleExactly(rules: seq<Rule>, words: seq<string>, i: nat)
    requires FirstMatch(rules, words, i)
    ensures FirstRule(rules, words) == Some(rules[i])
  {
    if i > 0 {
      assert !(rules[0].prefix <= words);
      assert forall j :: 0 <= j < i - 1 ==> rules[1..][j] == rules[j + 1];
      FirstRuleExactly(rules[1..], words, i - 1);
    }
  }

  // A command takes the class of the first rule that matches what it runs ...
  lemma RuleWins(argv: seq<string>, words: seq<string>, rules: seq<Rule>, tables: Tables, i: nat)
    requires NormalForm(argv) == Command(words) && FirstMatch(rules, words, i)
    ensures Classified(argv, rules, tables) == Classification(rules[i].kind, rules[i].id, "user", false)
  {
    FirstRuleExactly(rules, words, i);
  }

  // ... and that of the tables if none does; what is wrapped by the governor is light, and
  // what cannot be seen into is unknown.
  lemma NoRuleWins(argv: seq<string>, rules: seq<Rule>, tables: Tables)
    requires NormalForm(argv).Command? ==> forall r :: r in rules ==> !(r.prefix <= NormalForm(argv).words)
    ensures var c := Classified(argv, rules, tables);
            match NormalForm(argv)
            case AlreadyWrapped => c == Classification(Light, "governor.reentrant", "high", true)
            case UnsafeWrapper => c == Classification(Unknown, "wrapper.unsupported", "low", false)
            case Command(words) =>
              c == if words == [] then Classification(Unknown, "empty", "low", false) else tables(words)
  {
    if NormalForm(argv).Command? {
      var words := NormalForm(argv).words;
      var first := FirstRule(rules, words);
      assert first == None;
    }
  }
}

// File names of Unix paths, as std::path::Path::file_name gives them.
module Paths {
  import opened Wrappers

  // Position of the first '/', or the length.
  function Slash(s: string): (k: nat)
    ensures k <= |s| && (k < |s| ==> s[k] == '/')
    ensures forall i :: 0 <= i < k ==> s[i] != '/'
  {
    if s == "" || s[0] == '/' then 0 else 1 + Slash(s[1..])
  }

  // Path::components without the root: empty and "." parts are dropped.
  function Components(s: string): (parts: seq<string>)
    ensures forall p :: p in parts ==> p != "" && p != "." && '/' !in p
    decreases |s|
  {
    var k := Slash(s);
    var first := if s[..k] == "" || s[..k] == "." then [] else [s[..k]];
    if k == |s| then first else first + Components(s[k + 1..])
  }

  function FileName(s: string): (name: Option<string>)
    ensures name.Some? ==> name.value !in {"", ".", ".."} && '/' !in name.value
  {
    var parts := Components(s);
    if parts == [] then None
    else
      var last := parts[|parts| - 1];
      assert last in parts;
      if last == ".." then None else Some(last)
  }

  function Basename(s: string): string {
    match FileName(s)
    case Some(name) => name
    case None => s
  }

  lemma SlashFree(s: string)
    requires '/' !in s && s !in {"", ".", ".."}
    ensures FileName(s) == Some(s)
  {
    assert Slash(s) == |s|;
    assert s[..|s|] == s;
  }

  lemma SlashIs(s: string, k: nat)
    requires k < |s| && s[k] == '/' && forall i :: 0 <= i < k ==> s[i] != '/'
    ensures Slash(s) == k
  {
    if Slash(s) < k {
      assert s[Slash(s)] == '/';
    }
  }

  // What a part of a path adds to its components.
  function Part(p: string): seq<string> {
    if p == "" || p == "." then [] else [p]
  }

  lemma ComponentsAt(first: string, rest: string)
    requires '/' !in first
    ensures Components(first + "/" + rest) == Part(first) + Components(rest)
    ensures Components(first) == Part(first)
  {
    var s := first + "/" + rest;
    assert s[|first|] == '/' && forall i :: 0 <= i < |first| ==> s[i] == first[i];
    SlashIs(s, |first|);
    assert s[..|first|] == first && s[|first| + 1..] == rest;
    assert Slash(first) == |first| && first[..|first|] == first;
  }

  lemma ComponentsOf(s: string, first: string, more: string)
    requires '/' !in first && s == first + "/" + more
    ensures Components(s) == Part(first) + Components(more)
  {
    ComponentsAt(first, more);
  }

  lemma Regrouped(a: seq<string>, b: seq<string>, c: seq<string>)
    ensures a + (b + c) == (a + b) + c
  {
  }

  lemma Rejoined(first: string, more: string, rest: string)
    ensures first + "/" + more + "/" + rest == first + "/" + (more + "/" + rest)
  {
  }

  lemma SlashParts(dir: string) returns (first: string, more: string)
    requires '/' in dir
    ensures '/' !in first && dir == first + "/" + more
  {
    var k := Slash(dir);
    first, more := dir[..k], dir[k + 1..];
  }

  lemma {:induction false} ComponentsAppend(dir: string, rest: string)
    ensures Components(dir + "/" + rest) == Components(dir) + Components(rest)
    decreases |dir|
  {
    if '/' in dir {
      var first, more := SlashParts(dir);
      ComponentsAppend(more, rest);
      Rejoined(first, more, rest);
      ComponentsOf(dir, first, more);
      ComponentsOf(dir + "/" + rest, first, more + "/" + rest);
      Regrouped(Part(first), Components(more), Components(rest));
    } else {
      ComponentsAt(dir, rest);
    }
  }

  // The file name is the last part of a path, whatever the directory, and slashes behind
  // it do not matter.
  lemma FileNameIsLast(dir: string, name: string)
    requires '/' !in name && name !in {"", ".", ".."}
    ensures FileName(dir + "/" + name) == FileName(name) == FileName(name + "/") == Some(name)
  {
    SlashFree(name);
    ComponentsAt(name, "");
    ComponentsAppend(dir, name);
    assert name + "/" == name + "/" + "";
    ComponentsAppend(name, "");
    assert Components("") == [];
  }
}

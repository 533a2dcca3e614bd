/** The walk over a bucket directory, with an explicit stack and any order of entries. */
module DirectoryWalk {

  /** A finite, readable tree. */
  datatype Entry = File(name: string) | Dir(name: string, entries: seq<Entry>)

  /** A directory the walk has found and not yet read. */
  datatype Unread = Unread(path: string, entries: seq<Entry>)

  function Join(path: string, name: string): string {
    if path == "" then name else path + "/" + name
  }

  /** Relative path to key: backslashes become slashes. */
  function Key(path: string): string {
    seq(|path|, i requires 0 <= i < |path| => if path[i] == '\\' then '/' else path[i])
  }

  /** The keys of the files below a directory that start with the prefix, by multiplicity. */
  function Files(path: string, entries: seq<Entry>, prefix: string): multiset<string>
    decreases entries
  {
    if entries == [] then multiset{}
    else
      var first, rest := entries[0], Files(path, entries[1..], prefix);
      match first
      case File(name) => (if prefix <= Key(Join(path, name)) then multiset{Key(Join(path, name))} else multiset{}) +
          rest
      case Dir(name, inside) => Files(Join(path, name), inside, prefix) + rest
  }

  function Nodes(entries: seq<Entry>): nat
    decreases entries
  {
    if entries == [] then 0
    else 1 + (if entries[0].Dir? then Nodes(entries[0].entries) else 0) + Nodes(entries[1..])
  }

  function StackFiles(stack: seq<Unread>, prefix: string): multiset<string> {
    if stack == [] then multiset{}
    else
      var top := stack[|stack| - 1];
      StackFiles(stack[..|stack| - 1], prefix) + Files(top.path, top.entries, prefix)
  }

  function StackNodes(stack: seq<Unread>): nat {
    if stack == [] then 0
    else 1 + Nodes(stack[|stack| - 1].entries) + StackNodes(stack[..|stack| - 1])
  }

  lemma Pushed(stack: seq<Unread>, top: Unread, prefix: string)
    ensures StackFiles(stack + [top], prefix) == StackFiles(stack, prefix) + Files(top.path, top.entries, prefix)
    ensures StackNodes(stack + [top]) == 1 + Nodes(top.entries) + StackNodes(stack)
  {
    assert (stack + [top])[..|stack|] == stack;
  }

  /** The walk ends, and finds exactly the files under the prefix, each as often as it is there. */
  method Walk(root: seq<Entry>, prefix: string) returns (keys: seq<string>)
    ensures multiset(keys) == Files("", root, prefix)
  {
    hide Join, Key;
    keys := [];
    var stack := [Unread("", root)];
    Pushed([], Unread("", root), prefix);
    assert [] + [Unread("", root)] == stack;
    while stack != []
      invariant multiset(keys) + StackFiles(stack, prefix) == Files("", root, prefix)
      decreases StackNodes(stack)
    {
      var dir := stack[|stack| - 1];
      ghost var nodes := StackNodes(stack);
      stack := stack[..|stack| - 1];
      for i := 0 to |dir.entries|
        invariant multiset(keys) + StackFiles(stack, prefix) + Files(dir.path, dir.entries[i..], prefix) ==
                    Files("", root, prefix)
        invariant StackNodes(stack) + Nodes(dir.entries[i..]) < nodes
      {
        var entry := dir.entries[i];
        assert dir.entries[i..][0] == entry && dir.entries[i..][1..] == dir.entries[i + 1..];
        if entry.Dir? {
          Pushed(stack, Unread(Join(dir.path, entry.name), entry.entries), prefix);
          stack := stack + [Unread(Join(dir.path, entry.name), entry.entries)];
        } else {
          var key := Key(Join(dir.path, entry.name));
          if prefix <= key {
            keys := keys + [key];
          }
        }
      }
      assert dir.entries[|dir.entries|..] == [];
    }
  }

  /** The names lead from the directory to a file below it. */
  predicate Leads(entries: seq<Entry>, route: seq<string>)
    decreases entries
  {
    && entries != [] && route != []
    && ((&& entries[0].name == route[0]
         && if |route| == 1 then entries[0].File? else entries[0].Dir? && Leads(entries[0].entries, route[1..]))
        || Leads(entries[1..], route))
  }

  function JoinAll(path: string, route: seq<string>): string
    decreases |route|
  {
    if route == [] then path else JoinAll(Join(path, route[0]), route[1..])
  }

  predicate Route(path: string, entries: seq<Entry>, route: seq<string>, key: string) {
    Leads(entries, route) && Key(JoinAll(path, route)) == key
  }

  lemma JoinOne(path: string, name: string)
    ensures JoinAll(path, [name]) == Join(path, name)
  {
    assert [name][1..] == [];
  }

  /** The keys found are those of the routes that lead to a file: at any depth, and no others. */
  lemma {:induction false} FilesExactly(path: string, entries: seq<Entry>, prefix: string, key: string)
    ensures key in Files(path, entries, prefix) <==>
              prefix <= key && exists route :: Route(path, entries, route, key)
    decreases entries
  {
    if entries != [] {
      var e, rest := entries[0], entries[1..];
      FilesExactly(path, rest, prefix, key);
      if e.Dir? {
        FilesExactly(Join(path, e.name), e.entries, prefix, key);
      }
      if key in Files(path, entries, prefix) {
        var route := FoundRoute(path, entries, prefix, key);
      }
      forall route | prefix <= key && Route(path, entries, route, key) ensures key in Files(path, entries, prefix) {
        if Leads(rest, route) {
          assert Route(path, rest, route, key);
        } else if |route| == 1 {
          JoinOne(path, e.name);
          assert route == [e.name];
        } else {
          assert Route(Join(path, e.name), e.entries, route[1..], key);
        }
      }
    }
  }

  lemma FoundRoute(path: string, entries: seq<Entry>, prefix: string, key: string) returns (route: seq<string>)
    requires entries != [] && key in Files(path, entries, prefix)
    requires key in Files(path, entries[1..], prefix) ==>
               exists route :: Route(path, entries[1..], route, key)
    requires entries[0].Dir? && key in Files(Join(path, entries[0].name), entries[0].entries, prefix) ==>
               exists route :: Route(Join(path, entries[0].name), entries[0].entries, route, key)
    ensures Route(path, entries, route, key)
  {
    var e := entries[0];
    if key in Files(path, entries[1..], prefix) {
      route :| Route(path, entries[1..], route, key);
    } else if e.File? {
      route := [e.name];
      JoinOne(path, e.name);
    } else {
      var below :| Route(Join(path, e.name), e.entries, below, key);
      route := [e.name] + below;
      assert route[1..] == below;
    }
  }

  /** The order in which a directory is read does not matter. */
  lemma {:induction false} FilesConcat(path: string, a: seq<Entry>, b: seq<Entry>, prefix: string)
    ensures Files(path, a + b, prefix) == Files(path, a, prefix) + Files(path, b, prefix)
    decreases |a|
  {
    if a == [] {
      assert a + b == b;
    } else {
      assert (a + b)[0] == a[0] && (a + b)[1..] == a[1..] + b;
      FilesConcat(path, a[1..], b, prefix);
    }
  }

  /** The same tree, its directories read in another order, at every level. */
  ghost predicate Rearranged(a: seq<Entry>, b: seq<Entry>)
    decreases a
  {
    |a| == |b| &&
    (a == [] ||
     exists k :: 0 <= k < |b| && SameEntry(a[0], b[k]) && (a[0].Dir? ==> Rearranged(a[0].entries, b[k].entries)) &&
                 Rearranged(a[1..], b[..k] + b[k + 1..]))
  }

  predicate SameEntry(a: Entry, b: Entry) {
    a.name == b.name && a.Dir? == b.Dir?
  }

  lemma OneEntry(path: string, e: Entry, prefix: string)
    ensures Files(path, [e], prefix) ==
            if e.Dir? then Files(Join(path, e.name), e.entries, prefix)
            else if prefix <= Key(Join(path, e.name)) then multiset{Key(Join(path, e.name))} else multiset{}
  {
    assert [e][1..] == [];
  }

  lemma {:induction false} EntryOrderIrrelevant(path: string, a: seq<Entry>, b: seq<Entry>, prefix: string)
    requires Rearranged(a, b)
    ensures Files(path, a, prefix) == Files(path, b, prefix)
    decreases a
  {
    if a != [] {
      var k :| 0 <= k < |b| && SameEntry(a[0], b[k]) && (a[0].Dir? ==> Rearranged(a[0].entries, b[k].entries)) &&
               Rearranged(a[1..], b[..k] + b[k + 1..]);
      if a[0].Dir? {
        EntryOrderIrrelevant(Join(path, a[0].name), a[0].entries, b[k].entries, prefix);
      }
      EntryOrderIrrelevant(path, a[1..], b[..k] + b[k + 1..], prefix);
      OneEntry(path, a[0], prefix);
      OneEntry(path, b[k], prefix);
      TakeOut(path, b, k, prefix);
      FilesConcat(path, [a[0]], a[1..], prefix);
      assert [a[0]] + a[1..] == a;
    }
  }

  lemma TakeOut(path: string, b: seq<Entry>, k: nat, prefix: string)
    requires k < |b|
    ensures Files(path, b, prefix) == Files(path, [b[k]], prefix) + Files(path, b[..k] + b[k + 1..], prefix)
  {
    assert b == b[..k] + [b[k]] + b[k + 1..];
    FilesConcat(path, b[..k] + [b[k]], b[k + 1..], prefix);
    FilesConcat(path, b[..k], [b[k]], prefix);
    FilesConcat(path, b[..k], b[k + 1..], prefix);
  }

  /** The prefix only filters. */
  lemma {:induction false} PrefixFilters(path: string, entries: seq<Entry>, prefix: string, key: string)
    ensures Files(path, entries, prefix)[key] == if prefix <= key then Files(path, entries, "")[key] else 0
    decreases entries
  {
    if entries != [] {
      PrefixFilters(path, entries[1..], prefix, key);
      if entries[0].Dir? {
        PrefixFilters(Join(path, entries[0].name), entries[0].entries, prefix, key);
      }
    }
  }

  // ---------------------------------------------------------------- distinct keys

  predicate Plain(name: string) {
    '/' !in name && '\\' !in name
  }

  /** Distinct names in every directory, none with a separator in it. */
  predicate WellNamed(entries: seq<Entry>)
    decreases entries
  {
    entries == [] ||
    (&& Plain(entries[0].name) && entries[0].name != ""
     && (forall j | 1 <= j < |entries| :: entries[j].name != entries[0].name)
     && (entries[0].Dir? ==> WellNamed(entries[0].entries))
     && WellNamed(entries[1..]))
  }

  /** Everything below an entry has a key that begins with the entry's own. */
  predicate Under(key: string, path: string, name: string) {
    key == Join(path, name) || Join(path, name) + "/" <= key
  }

  lemma {:induction false} KeysUnder(path: string, entries: seq<Entry>, prefix: string, key: string)
    requires WellNamed(entries) && '\\' !in path && key in Files(path, entries, prefix)
    ensures exists j :: 0 <= j < |entries| && Under(key, path, entries[j].name)
    decreases entries
  {
    var e := entries[0];
    if e.File? && key == Key(Join(path, e.name)) {
      assert Key(Join(path, e.name)) == Join(path, e.name);
      assert Under(key, path, e.name);
    } else if e.Dir? && key in Files(Join(path, e.name), e.entries, prefix) {
      KeysUnder(Join(path, e.name), e.entries, prefix, key);
      assert Under(key, path, e.name);
    } else {
      KeysUnder(path, entries[1..], prefix, key);
      var j :| 0 <= j < |entries[1..]| && Under(key, path, entries[1..][j].name);
      assert entries[1..][j] == entries[j + 1];
    }
  }

  function Component(s: string): string {
    if s == "" || s[0] == '/' then "" else [s[0]] + Component(s[1..])
  }

  lemma {:induction false} ComponentIs(s: string, name: string)
    requires Plain(name) && (s == name || name + "/" <= s)
    ensures Component(s) == name
  {
    if name != "" {
      assert s[0] == name[0] && s[0] in name;
      ComponentIs(s[1..], name[1..]);
    }
  }

  /** A key is under one entry of a directory only. */
  lemma UnderNames(key: string, path: string, name: string)
    requires Plain(name) && Under(key, path, name)
    ensures var n := if path == "" then 0 else |path| + 1; |key| >= n && Component(key[n..]) == name
  {
    var n := if path == "" then 0 else |path| + 1;
    assert Join(path, name)[n..] == name;
    if key != Join(path, name) {
      assert (Join(path, name) + "/")[n..] == name + "/";
      assert name + "/" <= key[n..];
    }
    ComponentIs(key[n..], name);
  }

  lemma NameAt(entries: seq<Entry>, j: nat)
    requires WellNamed(entries) && j < |entries|
    ensures Plain(entries[j].name)
    decreases entries
  {
    if j > 0 {
      NameAt(entries[1..], j - 1);
    }
  }

  /** In a tree of plain, distinct names every key is listed once. */
  lemma {:induction false} KeysDistinct(path: string, entries: seq<Entry>, prefix: string, key: string)
    requires WellNamed(entries) && '\\' !in path
    ensures Files(path, entries, prefix)[key] <= 1
    decreases entries
  {
    if entries != [] {
      var e, rest := entries[0], entries[1..];
      KeysDistinct(path, rest, prefix, key);
      var here := Files(path, [e], prefix);
      assert [e][1..] == [];
      assert Files(path, entries, prefix) == here + Files(path, rest, prefix) by {
        FilesConcat(path, [e], rest, prefix);
        assert [e] + rest == entries;
      }
      if e.Dir? {
        KeysDistinct(Join(path, e.name), e.entries, prefix, key);
      }
      if key in here && key in Files(path, rest, prefix) {
        KeysUnder(path, [e], prefix, key);
        KeysUnder(path, rest, prefix, key);
        var j :| 0 <= j < |rest| && Under(key, path, rest[j].name);
        assert rest[j] == entries[j + 1];
        NameAt(rest, j);
        UnderNames(key, path, e.name);
        UnderNames(key, path, rest[j].name);
      }
    }
  }

  /** A backslash in a file name is enough for two files with one key. */
  lemma BackslashCollides()
    ensures Files("", [Dir("a", [File("b")]), File("a\\b")], "") == multiset{"a/b", "a/b"}
  {
    assert Key("a\\b") == "a/b";
    assert Key(Join("a", "b")) == "a/b" by {
      assert Join("a", "b") == "a/b";
    }
    assert Files("a", [File("b")], "") == multiset{"a/b"};
    assert Files("", [File("a\\b")], "") == multiset{"a/b"};
    var entries := [Dir("a", [File("b")]), File("a\\b")];
    assert entries[1..] == [File("a\\b")];
  }
}

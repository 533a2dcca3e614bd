/** Rolling sorted keys up to the first delimiter past a prefix. */
module KeyRollUp {
  import opened Options

  // ---------------------------------------------------------------- key order

  /** Strictly before, comparing characters from the left. */
  predicate Before(a: string, b: string) {
    b != "" && (a == "" || a[0] < b[0] || (a[0] == b[0] && Before(a[1..], b[1..])))
  }

  predicate AtMost(a: string, b: string) {
    a == b || Before(a, b)
  }

  ghost predicate InOrder(keys: seq<string>) {
    forall i, j | 0 <= i < j < |keys| :: AtMost(keys[i], keys[j])
  }

  ghost predicate Increasing(keys: seq<string>) {
    forall i, j | 0 <= i < j < |keys| :: Before(keys[i], keys[j])
  }

  lemma {:induction false} NotBoth(a: string, b: string)
    ensures Before(a, b) ==> !Before(b, a) && a != b
  {
    if a != "" && b != "" && a[0] == b[0] {
      NotBoth(a[1..], b[1..]);
    }
  }

  lemma {:induction false} OneOf(a: string, b: string)
    ensures a == b || Before(a, b) || Before(b, a)
  {
    if a != "" && b != "" && a[0] == b[0] {
      OneOf(a[1..], b[1..]);
    }
  }

  lemma {:induction false} Chain(a: string, b: string, c: string)
    requires AtMost(a, b) && AtMost(b, c)
    ensures AtMost(a, c)
  {
    if a != "" && b != "" && c != "" && a != b && b != c && a[0] == b[0] == c[0] {
      Chain(a[1..], b[1..], c[1..]);
    }
  }

  /** Prefixes neither of which begins the other are ordered as what they begin. */
  lemma {:induction false} PrefixesOrdered(p: string, q: string, a: string, b: string)
    requires p <= a && q <= b && AtMost(a, b)
    requires !(p <= q) && !(q <= p)
    ensures Before(p, q)
  {
    if p[0] == q[0] {
      PrefixesOrdered(p[1..], q[1..], a[1..], b[1..]);
    }
  }

  // ---------------------------------------------------------------- folders

  predicate OccursAt(key: string, delim: string, i: nat) {
    i + |delim| <= |key| && key[i..i + |delim|] == delim
  }

  /** The first occurrence at or after `i`. */
  function FindFrom(key: string, delim: string, i: nat): (r: Option<nat>)
    requires i <= |key|
    ensures r.Some? ==> i <= r.value && OccursAt(key, delim, r.value)
    ensures forall j: nat | i <= j < (if r.Some? then r.value else |key| + 1) :: !OccursAt(key, delim, j)
    decreases |key| - i
  {
    if OccursAt(key, delim, i) then Some(i)
    else if i == |key| then None
    else FindFrom(key, delim, i + 1)
  }

  /** The key up to and including its first delimiter past the prefix. */
  function Folder(key: string, prefix: string, delim: string): (r: Option<string>)
    requires prefix <= key
    ensures r.Some? ==> r.value <= key && |r.value| >= |prefix| + |delim|
  {
    match FindFrom(key, delim, |prefix|)
    case Some(i) => Some(key[..i + |delim|])
    case None => None
  }

  /** The folder of a key is the shortest of its beginnings that ends in a delimiter past the prefix. */
  lemma FolderIsShortest(key: string, prefix: string, delim: string, f: string)
    requires prefix <= key && f <= key && |f| >= |prefix| + |delim| && OccursAt(f, delim, |f| - |delim|)
    ensures Folder(key, prefix, delim).Some? && |Folder(key, prefix, delim).value| <= |f|
    ensures Folder(key, prefix, delim).value <= f
  {
    assert OccursAt(key, delim, |f| - |delim|);
    assert Folder(key, prefix, delim).value == key[..|Folder(key, prefix, delim).value|];
  }

  lemma FolderShape(key: string, prefix: string, delim: string)
    requires prefix <= key && Folder(key, prefix, delim).Some?
    ensures var f := Folder(key, prefix, delim).value;
            prefix <= f <= key && |f| >= |prefix| + |delim| && OccursAt(f, delim, |f| - |delim|)
  {
  }

  /** A folder of any key that begins another key is that key's folder too. */
  lemma FolderOfBoth(key: string, other: string, prefix: string, delim: string)
    requires prefix <= key && prefix <= other && Folder(key, prefix, delim).Some?
    requires Folder(key, prefix, delim).value <= other
    ensures Folder(other, prefix, delim) == Folder(key, prefix, delim)
  {
    var f := Folder(key, prefix, delim).value;
    FolderShape(key, prefix, delim);
    FolderIsShortest(other, prefix, delim, f);
    var g := Folder(other, prefix, delim).value;
    FolderShape(other, prefix, delim);
    assert g <= f <= key;
    FolderIsShortest(key, prefix, delim, g);
    assert f == g;
  }

  /** No folder begins a different one. */
  lemma FoldersIncomparable(a: string, b: string, prefix: string, delim: string)
    requires prefix <= a && prefix <= b && Folder(a, prefix, delim).Some? && Folder(b, prefix, delim).Some?
    requires Folder(a, prefix, delim).value <= Folder(b, prefix, delim).value
    ensures Folder(a, prefix, delim) == Folder(b, prefix, delim)
  {
    FolderShape(b, prefix, delim);
    FolderOfBoth(a, b, prefix, delim);
  }

  /** Keys in order have their folders in order. */
  lemma FoldersOrdered(a: string, b: string, prefix: string, delim: string)
    requires prefix <= a && prefix <= b && AtMost(a, b)
    requires Folder(a, prefix, delim).Some? && Folder(b, prefix, delim).Some?
    ensures AtMost(Folder(a, prefix, delim).value, Folder(b, prefix, delim).value)
  {
    var f, g := Folder(a, prefix, delim).value, Folder(b, prefix, delim).value;
    if f <= g {
      FoldersIncomparable(a, b, prefix, delim);
    } else if g <= f {
      FoldersIncomparable(b, a, prefix, delim);
    } else {
      PrefixesOrdered(f, g, a, b);
    }
  }

  lemma {:induction false} BetweenBegins(p: string, a: string, b: string, c: string)
    requires p <= a && p <= c && AtMost(a, b) && AtMost(b, c)
    ensures p <= b
  {
    if p != "" && a != b && b != c {
      assert a[0] == p[0] == c[0];
      BetweenBegins(p[1..], a[1..], b[1..], c[1..]);
    }
  }

  /** In sorted keys the members of a folder stand together. */
  lemma FolderContiguous(a: string, b: string, c: string, prefix: string, delim: string)
    requires prefix <= a && prefix <= b && prefix <= c && AtMost(a, b) && AtMost(b, c)
    requires Folder(a, prefix, delim).Some? && Folder(a, prefix, delim) == Folder(c, prefix, delim)
    ensures Folder(b, prefix, delim) == Folder(a, prefix, delim)
  {
    BetweenBegins(Folder(a, prefix, delim).value, a, b, c);
    FolderOfBoth(a, b, prefix, delim);
  }

  // ---------------------------------------------------------------- the roll-up

  ghost predicate AllUnder(keys: seq<string>, prefix: string) {
    forall i | 0 <= i < |keys| :: prefix <= keys[i]
  }

  function FolderOf(key: string, prefix: string, delimiter: Option<string>): Option<string>
    requires prefix <= key
  {
    if delimiter.Some? then Folder(key, prefix, delimiter.value) else None
  }

  /** The keys listed one by one: those without a folder, in their order. */
  function Objects(keys: seq<string>, prefix: string, delimiter: Option<string>): seq<string>
    requires AllUnder(keys, prefix)
  {
    if keys == [] then []
    else
      var last := keys[|keys| - 1];
      Objects(keys[..|keys| - 1], prefix, delimiter) + (if FolderOf(last, prefix, delimiter).None? then [last] else [])
  }

  /** The folders of the first `n` keys, and nothing else. */
  ghost predicate Collected(keys: seq<string>, prefix: string, delimiter: Option<string>, n: nat, prefixes: seq<string>)
    requires AllUnder(keys, prefix) && n <= |keys|
  {
    && (forall f | f in prefixes :: exists k: nat :: k < n && FolderOf(keys[k], prefix, delimiter) == Some(f))
    && (forall k: nat | k < n && FolderOf(keys[k], prefix, delimiter).Some? ::
          FolderOf(keys[k], prefix, delimiter).value in prefixes)
  }

  lemma CollectOne(keys: seq<string>, prefix: string, delimiter: Option<string>, n: nat, prefixes: seq<string>)
    requires AllUnder(keys, prefix) && InOrder(keys) && n < |keys|
    requires Collected(keys, prefix, delimiter, n, prefixes) && Increasing(prefixes)
    ensures var f := FolderOf(keys[n], prefix, delimiter);
            if f.None? || f.value in prefixes then Collected(keys, prefix, delimiter, n + 1, prefixes)
            else Collected(keys, prefix, delimiter, n + 1, prefixes + [f.value]) && Increasing(prefixes + [f.value])
  {
    var f := FolderOf(keys[n], prefix, delimiter);
    if f.Some? && f.value !in prefixes {
      hide Folder, Before;
      forall p | p in prefixes ensures Before(p, f.value) {
        var k: nat :| k < n && FolderOf(keys[k], prefix, delimiter) == Some(p);
        FoldersOrdered(keys[k], keys[n], prefix, delimiter.value);
      }
    }
  }

  /** The loop over the sorted keys. Common prefixes come out distinct and increasing. */
  method RollUp(keys: seq<string>, prefix: string, delimiter: Option<string>)
    returns (objects: seq<string>, prefixes: seq<string>)
    requires AllUnder(keys, prefix) && InOrder(keys)
    ensures objects == Objects(keys, prefix, delimiter) && InOrder(objects)
    ensures Increasing(prefixes) && Collected(keys, prefix, delimiter, |keys|, prefixes)
    ensures delimiter.None? ==> objects == keys && prefixes == []
    ensures delimiter.Some? ==>
              && (forall f | f in prefixes :: Ends(f, prefix, delimiter.value))
              && (forall key | key in objects :: Free(key, prefix, delimiter.value))
  {
    hide InOrder, Collected, Increasing, Ends, Free, Before;
    objects, prefixes := [], [];
    NoneCollected(keys, prefix, delimiter);
    for i := 0 to |keys|
      invariant AllUnder(keys[..i], prefix) && objects == Objects(keys[..i], prefix, delimiter)
      invariant Increasing(prefixes) && Collected(keys, prefix, delimiter, i, prefixes)
    {
      assert keys[..i + 1][..i] == keys[..i];
      CollectOne(keys, prefix, delimiter, i, prefixes);
      var key := keys[i];
      var index := if delimiter.Some? then FindFrom(key, delimiter.value, |prefix|) else None;
      if index.Some? {
        var folder := key[..index.value] + delimiter.value;
        assert folder == key[..index.value + |delimiter.value|];
        if folder !in prefixes {
          prefixes := prefixes + [folder];
        }
      } else {
        objects := objects + [key];
      }
    }
    assert keys[..|keys|] == keys;
    ObjectsInOrder(keys, prefix, delimiter);
    RolledUp(keys, prefix, delimiter, prefixes);
  }

  /** A folder: more than the prefix, up to a delimiter. */
  predicate Ends(f: string, prefix: string, delim: string) {
    prefix <= f && |f| >= |prefix| + |delim| && f[|f| - |delim|..] == delim
  }

  /** No delimiter past the prefix. */
  predicate Free(key: string, prefix: string, delim: string) {
    forall i | |prefix| <= i <= |key| :: !(delim <= key[i..])
  }

  lemma RolledUp(keys: seq<string>, prefix: string, delimiter: Option<string>, prefixes: seq<string>)
    requires AllUnder(keys, prefix) && Collected(keys, prefix, delimiter, |keys|, prefixes)
    ensures delimiter.None? ==> Objects(keys, prefix, delimiter) == keys && prefixes == []
    ensures delimiter.Some? ==>
              && (forall f | f in prefixes :: Ends(f, prefix, delimiter.value))
              && (forall key | key in Objects(keys, prefix, delimiter) :: Free(key, prefix, delimiter.value))
  {
    if delimiter.None? {
      NothingRolledUp(keys, prefix);
      if prefixes != [] {
        var k: nat :| k < |keys| && FolderOf(keys[k], prefix, delimiter) == Some(prefixes[0]);
        assert false;
      }
    } else {
      forall f | f in prefixes ensures Ends(f, prefix, delimiter.value) {
        var k: nat :| k < |keys| && FolderOf(keys[k], prefix, delimiter) == Some(f);
        FolderShape(keys[k], prefix, delimiter.value);
      }
      ListedAreFree(keys, prefix, delimiter.value);
    }
  }

  lemma {:induction false} NothingRolledUp(keys: seq<string>, prefix: string)
    requires AllUnder(keys, prefix)
    ensures Objects(keys, prefix, None) == keys
  {
    if keys != [] {
      NothingRolledUp(keys[..|keys| - 1], prefix);
    }
  }

  lemma BeginsAt(key: string, delim: string, i: nat)
    requires i <= |key|
    ensures delim <= key[i..] <==> OccursAt(key, delim, i)
  {
    assert i + |delim| <= |key| ==> key[i..][..|delim|] == key[i..i + |delim|];
  }

  lemma {:induction false} ListedAreFree(keys: seq<string>, prefix: string, delim: string)
    requires AllUnder(keys, prefix)
    ensures forall key | key in Objects(keys, prefix, Some(delim)) :: Free(key, prefix, delim)
  {
    if keys != [] {
      var last := keys[|keys| - 1];
      ListedAreFree(keys[..|keys| - 1], prefix, delim);
      if Folder(last, prefix, delim).None? {
        forall i | |prefix| <= i <= |last| ensures !(delim <= last[i..]) {
          BeginsAt(last, delim, i);
        }
        assert Free(last, prefix, delim);
      }
    }
  }

  /** What is listed one by one keeps the order of the keys. */
  lemma {:induction false} ObjectsInOrder(keys: seq<string>, prefix: string, delimiter: Option<string>)
    requires AllUnder(keys, prefix) && InOrder(keys)
    ensures InOrder(Objects(keys, prefix, delimiter))
    ensures forall key | key in Objects(keys, prefix, delimiter) :: key in keys
  {
    if keys != [] {
      var n := |keys| - 1;
      ObjectsInOrder(keys[..n], prefix, delimiter);
      assert forall key | key in keys[..n] :: AtMost(key, keys[n]);
    }
  }

  lemma NoneCollected(keys: seq<string>, prefix: string, delimiter: Option<string>)
    requires AllUnder(keys, prefix)
    ensures Increasing([]) && Collected(keys, prefix, delimiter, 0, [])
  {
  }

  /** Roll-up is a partition: a key is listed itself, or lies under exactly one common prefix. */
  lemma Partition(keys: seq<string>, prefix: string, delimiter: Option<string>, prefixes: seq<string>, key: string)
    requires AllUnder(keys, prefix) && key in keys
    requires Collected(keys, prefix, delimiter, |keys|, prefixes)
    ensures prefix <= key
    ensures FolderOf(key, prefix, delimiter).None? <==> forall f | f in prefixes :: !(f <= key)
    ensures FolderOf(key, prefix, delimiter).Some? ==>
              forall f :: f in prefixes && f <= key <==> f == FolderOf(key, prefix, delimiter).value
    ensures multiset(Objects(keys, prefix, delimiter))[key] == if FolderOf(key, prefix, delimiter).None?
              then multiset(keys)[key] else 0
  {
    var n :| 0 <= n < |keys| && keys[n] == key;
    forall f | f in prefixes && f <= key ensures FolderOf(key, prefix, delimiter) == Some(f) {
      var i: nat :| i < |keys| && FolderOf(keys[i], prefix, delimiter) == Some(f);
      FolderOfBoth(keys[i], key, prefix, delimiter.value);
    }
    ObjectsCount(keys, prefix, delimiter, key);
  }

  lemma {:induction false} ObjectsCount(keys: seq<string>, prefix: string, delimiter: Option<string>, key: string)
    requires AllUnder(keys, prefix) && prefix <= key
    ensures multiset(Objects(keys, prefix, delimiter))[key] ==
            if FolderOf(key, prefix, delimiter).None? then multiset(keys)[key] else 0
  {
    if keys != [] {
      var n := |keys| - 1;
      assert keys == keys[..n] + [keys[n]];
      ObjectsCount(keys[..n], prefix, delimiter, key);
    }
  }
}

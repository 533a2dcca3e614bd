/** One page of the local backend: walk, sort, roll up, cut. */
module LocalStorage {
  import opened Options
  import opened DirectoryWalk
  import opened KeyRollUp
  import opened ObjectPages
  import opened Collections

  // ---------------------------------------------------------------- the sort

  function Insert(key: string, keys: seq<string>): (r: seq<string>)
    ensures multiset(r) == multiset(keys) + multiset{key}
  {
    if keys == [] || AtMost(key, keys[0]) then [key] + keys
    else (assert keys == [keys[0]] + keys[1..]; [keys[0]] + Insert(key, keys[1..]))
  }

  /** The order of a sort that compares keys only. */
  function Sort(keys: seq<string>): (r: seq<string>)
    ensures multiset(r) == multiset(keys)
  {
    if keys == [] then []
    else (assert keys == [keys[0]] + keys[1..]; Insert(keys[0], Sort(keys[1..])))
  }

  lemma {:induction false} InsertKeepsOrder(key: string, keys: seq<string>)
    requires InOrder(keys)
    ensures InOrder(Insert(key, keys))
  {
    if keys == [] {
    } else if AtMost(key, keys[0]) {
      forall j | 0 <= j < |keys| ensures AtMost(key, keys[j]) {
        Chain(key, keys[0], keys[j]);
      }
    } else {
      OneOf(key, keys[0]);
      InsertKeepsOrder(key, keys[1..]);
      var rest := Insert(key, keys[1..]);
      forall j | 0 <= j < |rest| ensures AtMost(keys[0], rest[j]) {
        assert rest[j] in multiset(rest);
        assert rest[j] == key || rest[j] in keys[1..];
      }
    }
  }

  lemma {:induction false} SortIsInOrder(keys: seq<string>)
    ensures InOrder(Sort(keys))
  {
    if keys != [] {
      SortIsInOrder(keys[1..]);
      InsertKeepsOrder(keys[0], Sort(keys[1..]));
    }
  }

  /** Order and multiplicity leave one listing only, whatever order the walk found the keys in. */
  lemma {:induction false} ListingIsUnique(a: seq<string>, b: seq<string>)
    requires InOrder(a) && InOrder(b) && multiset(a) == multiset(b)
    ensures a == b
  {
    if a == [] {
      assert |multiset(b)| == |b| == 0;
    } else {
      assert a[0] in multiset(b);
      assert |multiset(a)| == |multiset(b)| == |b|;
      assert b[0] in multiset(a);
      NotBoth(a[0], b[0]);
      assert a[0] == b[0];
      assert a == [a[0]] + a[1..] && b == [b[0]] + b[1..];
      assert multiset(a[1..]) == multiset(a) - multiset{a[0]};
      assert multiset(b[1..]) == multiset(b) - multiset{b[0]};
      ListingIsUnique(a[1..], b[1..]);
    }
  }

  // ---------------------------------------------------------------- the page

  ghost predicate ListingOf(root: seq<Entry>, prefix: string, keys: seq<string>) {
    InOrder(keys) && multiset(keys) == Files("", root, prefix)
  }

  lemma {:induction false} FilesHavePrefix(path: string, entries: seq<Entry>, prefix: string, key: string)
    requires key in Files(path, entries, prefix)
    ensures prefix <= key
  {
    PrefixFilters(path, entries, prefix, key);
  }

  lemma ListedHavePrefix(root: seq<Entry>, prefix: string, keys: seq<string>)
    requires multiset(keys) == Files("", root, prefix)
    ensures AllUnder(keys, prefix)
  {
    forall i | 0 <= i < |keys| ensures prefix <= keys[i] {
      assert keys[i] in multiset(keys);
      FilesHavePrefix("", root, prefix, keys[i]);
    }
  }

  /** The page and all common prefixes; a bucket that does not exist lists nothing. */
  method ListObjectsPage(root: Option<seq<Entry>>, prefix: string, delimiter: Option<string>, cursor: Option<string>,
                         max: int)
    returns (page: Page<string, string>, prefixes: seq<string>, ghost keys: seq<string>)
    ensures root.None? ==> page == Page([], false, None) && prefixes == []
    ensures root.Some? ==>
              && ListingOf(root.value, prefix, keys) && AllUnder(keys, prefix)
              && page == PageAt(Objects(keys, prefix, delimiter), StartOf(Objects(keys, prefix, delimiter), cursor),
                                Clamp(max))
              && Increasing(prefixes) && Collected(keys, prefix, delimiter, |keys|, prefixes)
  {
    keys := [];
    if root.None? {
      return Page([], false, None), [], [];
    }
    var found := Walk(root.value, prefix);
    var ordered := Sort(found);
    SortIsInOrder(found);
    ListedHavePrefix(root.value, prefix, ordered);
    var objects: seq<string>;
    objects, prefixes := RollUp(ordered, prefix, delimiter);
    page := PageOf(objects, cursor, max);
    keys := ordered;
  }

  // ---------------------------------------------------------------- whole listings

  lemma ListedOnce(root: seq<Entry>, prefix: string, delimiter: Option<string>, keys: seq<string>)
    requires WellNamed(root) && ListingOf(root, prefix, keys) && AllUnder(keys, prefix)
    ensures NoRepeats(Objects(keys, prefix, delimiter))
  {
    var objects := Objects(keys, prefix, delimiter);
    forall i, j | 0 <= i < j < |objects| ensures objects[i] != objects[j] {
      var key := objects[i];
      if objects[j] == key {
        Twice(objects, i, j);
        ObjectsUnder(keys, prefix, delimiter, i);
        ObjectsCount(keys, prefix, delimiter, key);
        KeysDistinct("", root, prefix, key);
      }
    }
  }

  lemma Twice(s: seq<string>, i: nat, j: nat)
    requires i < j < |s| && s[i] == s[j]
    ensures multiset(s)[s[i]] >= 2
  {
    assert s == s[..j] + [s[j]] + s[j + 1..];
    assert s[..j][i] == s[i];
    assert s[i] in multiset(s[..j]);
  }

  lemma {:induction false} ObjectsUnder(keys: seq<string>, prefix: string, delimiter: Option<string>, i: nat)
    requires AllUnder(keys, prefix) && i < |Objects(keys, prefix, delimiter)|
    ensures prefix <= Objects(keys, prefix, delimiter)[i]
  {
    var n := |keys| - 1;
    if i < |Objects(keys[..n], prefix, delimiter)| {
      ObjectsUnder(keys[..n], prefix, delimiter, i);
    }
  }

  /** In a tree of plain, distinct names, for any prefix, delimiter and page size, following
      the cursors from the start ends after the expected number of pages, and they are the
      whole list of objects, each once and in order. */
  lemma LocalListingIsWhole(root: seq<Entry>, prefix: string, delimiter: Option<string>, keys: seq<string>, max: int)
    requires WellNamed(root) && ListingOf(root, prefix, keys) && AllUnder(keys, prefix)
    ensures var objects, limit := Objects(keys, prefix, delimiter), Clamp(max);
            && BoundariesFirst(objects, limit)
            && WalkIs(objects, limit, Aligned(|objects|, limit))
            && Concat(Contents(PagesAt(objects, limit, Aligned(|objects|, limit)))) == objects
  {
    ListedOnce(root, prefix, delimiter, keys);
    DistinctIsEnough(Objects(keys, prefix, delimiter), Clamp(max));
    PagesAreTheListing(Objects(keys, prefix, delimiter), Clamp(max));
  }
}

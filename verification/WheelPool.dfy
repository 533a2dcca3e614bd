/**
 The map pool a wheel lobby locks with: the deduplicated nominations, padded from the
 game's default pool when there are fewer than the format plays.
*/
module WheelPool {
  import opened Collections

  type MapId = string

  datatype Pool = Enough(maps: seq<MapId>) | TooFew(available: nat)

  /** Where a map first appears. */
  function First(maps: seq<MapId>, m: MapId): nat {
    if maps == [] || maps[0] == m then 0 else 1 + First(maps[1..], m)
  }

  /** The maps stand in the order in which they first appear. */
  ghost predicate InOrder(maps: seq<MapId>, source: seq<MapId>) {
    forall i, j | 0 <= i < j < |maps| :: First(source, maps[i]) < First(source, maps[j])
  }

  lemma {:induction false} FirstSnoc(maps: seq<MapId>, x: MapId, m: MapId)
    ensures m in maps ==> First(maps + [x], m) == First(maps, m) < |maps|
    ensures m !in maps ==> First(maps, m) == |maps| && First(maps + [m], m) == |maps|
    decreases |maps|
  {
    if maps != [] {
      assert (maps + [x])[1..] == maps[1..] + [x] && (maps + [m])[1..] == maps[1..] + [m];
      FirstSnoc(maps[1..], x, m);
    }
  }

  /** One map more of the source, listed if it is new. */
  lemma InOrderSnoc(maps: seq<MapId>, source: seq<MapId>, x: MapId)
    requires InOrder(maps, source) && forall m | m in maps :: m in source
    ensures InOrder(maps, source + [x])
    ensures x !in source ==> InOrder(maps + [x], source + [x])
  {
    forall m | m in maps ensures First(source + [x], m) == First(source, m) < |source| {
      FirstSnoc(source, x, m);
    }
    FirstSnoc(source, x, x);
    hide First;
    assert forall i | 0 <= i < |maps| :: maps[i] in maps;
  }

  lemma ElementsSnoc(maps: seq<MapId>, m: MapId)
    ensures Elements(maps + [m]) == Elements(maps) + {m}
  {
  }

  lemma NoRepeatsSnoc(maps: seq<MapId>, m: MapId)
    requires NoRepeats(maps)
    ensures m !in maps ==> NoRepeats(maps + [m])
    ensures m in maps <==> m in Elements(maps)
  {
  }

  lemma NoneYet(nominated: seq<MapId>, defaults: seq<MapId>)
    ensures Elements(nominated) == Elements(nominated) + Elements(defaults[..0])
  {
  }

  lemma MoreElements(few: set<MapId>, many: set<MapId>)
    requires few <= many
    ensures |few| <= |many|
    ensures |few| == |many| ==> few == many
  {
    assert many == few + (many - few);
  }

  /** The nominations of `prepare_lock`, each map once. */
  method Deduplicate(entries: seq<MapId>) returns (unique: seq<MapId>)
    ensures NoRepeats(unique) && Elements(unique) == Elements(entries) && InOrder(unique, entries)
  {
    unique := [];
    for i := 0 to |entries|
      invariant NoRepeats(unique) && Elements(unique) == Elements(entries[..i]) && InOrder(unique, entries[..i])
    {
      hide InOrder;
      assert entries[..i + 1] == entries[..i] + [entries[i]];
      SameElements(unique, entries[..i]);
      InOrderSnoc(unique, entries[..i], entries[i]);
      ElementsSnoc(entries[..i], entries[i]);
      ElementsSnoc(unique, entries[i]);
      if entries[i] !in unique {
        unique := unique + [entries[i]];
      }
    }
    assert entries[..|entries|] == entries;
  }

  lemma SameElements(a: seq<MapId>, b: seq<MapId>)
    requires Elements(a) == Elements(b)
    ensures forall m :: m in a <==> m in b
  {
    assert forall m :: m in a <==> m in Elements(a);
    assert forall m :: m in b <==> m in Elements(b);
  }

  function Max(a: nat, b: nat): nat {
    if a < b then b else a
  }

  /** The wheel branch of `resolve_map_pool`. Padding succeeds exactly when nominations and
      defaults together offer enough maps; it keeps the nominations in front, adds no map
      twice even when the defaults repeat, adds no more than needed, and only from a beginning of
      the defaults, in their order. */
  method PadFromDefaults(nominated: seq<MapId>, defaults: seq<MapId>, needed: nat) returns (result: Pool)
    requires NoRepeats(nominated)
    ensures result.Enough? <==> |Elements(nominated) + Elements(defaults)| >= needed
    ensures result.Enough? ==>
              && nominated <= result.maps && NoRepeats(result.maps)
              && |result.maps| == Max(|nominated|, needed)
              && InOrder(result.maps[|nominated|..], defaults)
              && exists n :: 0 <= n <= |defaults| &&
                   Elements(result.maps) == Elements(nominated) + Elements(defaults[..n])
    ensures result.TooFew? ==> result.available == |Elements(nominated) + Elements(defaults)|
  {
    hide Elements, NoRepeats, InOrder;
    var pool := nominated;
    ghost var padding: seq<MapId> := [];
    NothingPadded();
    var i := 0;
    NoneYet(nominated, defaults);
    while i < |defaults| && |pool| < needed
      invariant 0 <= i <= |defaults|
      invariant nominated <= pool && NoRepeats(pool)
      invariant Elements(pool) == Elements(nominated) + Elements(defaults[..i])
      invariant |pool| <= Max(|nominated|, needed)
      invariant pool == nominated + padding && InOrder(padding, defaults[..i])
      invariant forall m | m in padding :: m in defaults[..i]
    {
      assert defaults[..i + 1] == defaults[..i] + [defaults[i]];
      ElementsSnoc(defaults[..i], defaults[i]);
      ElementsSnoc(pool, defaults[i]);
      NoRepeatsSnoc(pool, defaults[i]);
      InOrderSnoc(padding, defaults[..i], defaults[i]);
      if defaults[i] !in pool {
        NewToPool(nominated, defaults[..i], pool, defaults[i]);
        pool, padding := pool + [defaults[i]], padding + [defaults[i]];
      }
      i := i + 1;
    }
    FirstOfPrefix(padding, defaults, i);
    Offered(nominated, defaults, i, pool);
    if |pool| < needed {
      return TooFew(|pool|);
    }
    return Enough(pool);
  }

  lemma NothingPadded()
    ensures forall defaults: seq<MapId> :: InOrder([], defaults)
  {
  }

  lemma NewToPool(nominated: seq<MapId>, defaults: seq<MapId>, pool: seq<MapId>, m: MapId)
    requires Elements(pool) == Elements(nominated) + Elements(defaults) && m !in pool
    ensures m !in defaults
  {
    assert m in defaults ==> m in Elements(defaults);
    assert m in Elements(pool) ==> m in pool;
  }

  lemma FirstOfPrefix(maps: seq<MapId>, source: seq<MapId>, n: nat)
    requires n <= |source| && InOrder(maps, source[..n]) && forall m | m in maps :: m in source[..n]
    ensures InOrder(maps, source)
    decreases |source| - n
  {
    if n < |source| {
      assert source[..n + 1] == source[..n] + [source[n]];
      InOrderSnoc(maps, source[..n], source[n]);
      FirstOfPrefix(maps, source, n + 1);
    } else {
      assert source[..n] == source;
    }
  }

  lemma Offered(nominated: seq<MapId>, defaults: seq<MapId>, i: nat, pool: seq<MapId>)
    requires i <= |defaults| && NoRepeats(pool) && Elements(pool) == Elements(nominated) + Elements(defaults[..i])
    ensures Elements(pool) <= Elements(nominated) + Elements(defaults)
    ensures |pool| <= |Elements(nominated) + Elements(defaults)|
    ensures i == |defaults| ==> |pool| == |Elements(nominated) + Elements(defaults)|
  {
    SizeOfElements(pool);
    assert i == |defaults| ==> defaults[..i] == defaults;
    MoreElements(Elements(pool), Elements(nominated) + Elements(defaults));
  }
}

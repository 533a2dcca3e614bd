/**
 The wheel itself: segments built from nominations over the maps still in play, and the
 weighted draw. A map wins on exactly as many rolls as it has nominations (one if none).
*/
module WheelDraw {
  type MapId = string

  datatype Segment = Segment(map_: MapId, weight: nat)

  function Nominations(entries: seq<MapId>, m: MapId): nat {
    multiset(entries)[m]
  }

  /** A map in play weighs its nominations; a padding map nobody nominated weighs one. */
  function Weight(entries: seq<MapId>, m: MapId): nat {
    if Nominations(entries, m) == 0 then 1 else Nominations(entries, m)
  }

  /** `build_segments`, up to the final ordering: the aggregated map. */
  method AggregateWeights(entries: seq<MapId>, allowed: seq<MapId>) returns (byMap: map<MapId, nat>)
    ensures byMap.Keys == set m | m in allowed
    ensures forall m | m in byMap && m in entries :: byMap[m] == multiset(entries)[m]
    ensures forall m | m in byMap && m !in entries :: byMap[m] == 1
  {
    byMap := map[];
    for i := 0 to |entries|
      invariant forall m :: m in byMap <==> m in allowed && m in entries[..i]
      invariant forall m | m in byMap :: byMap[m] == Nominations(entries[..i], m) > 0
    {
      assert entries[..i + 1] == entries[..i] + [entries[i]];
      if entries[i] in allowed {
        byMap := byMap[entries[i] := (if entries[i] in byMap then byMap[entries[i]] else 0) + 1];
      }
    }
    assert entries[..|entries|] == entries;
    ghost var nominated := byMap;
    for i := 0 to |allowed|
      invariant forall m :: m in byMap <==> (m in allowed && m in entries) || m in allowed[..i]
      invariant forall m | m in byMap :: byMap[m] == Weight(entries, m)
    {
      if allowed[i] !in byMap {
        byMap := byMap[allowed[i] := 1];
      }
      assert allowed[..i + 1] == allowed[..i] + [allowed[i]];
    }
    assert allowed[..|allowed|] == allowed;
  }

  function Total(segments: seq<Segment>): nat {
    if segments == [] then 0 else Total(segments[..|segments| - 1]) + segments[|segments| - 1].weight
  }

  lemma TotalSnoc(segments: seq<Segment>, i: nat)
    requires i < |segments|
    ensures Total(segments[..i + 1]) == Total(segments[..i]) + segments[i].weight
  {
    assert segments[..i + 1][..i] == segments[..i];
  }

  lemma {:induction false} TotalMonotone(segments: seq<Segment>, i: nat, j: nat)
    requires i <= j <= |segments|
    ensures Total(segments[..i]) <= Total(segments[..j])
    decreases j - i
  {
    if i < j {
      TotalSnoc(segments, i);
      TotalMonotone(segments, i + 1, j);
    }
  }

  /** The rolls on which segment `i` wins. */
  predicate Covers(segments: seq<Segment>, i: nat, roll: nat)
    requires i < |segments|
  {
    Total(segments[..i]) <= roll < Total(segments[..i]) + segments[i].weight
  }

  /** `draw` for a given roll: walk the segments, subtracting weights. */
  method Land(segments: seq<Segment>, roll: nat) returns (winner: nat)
    requires roll < Total(segments)
    ensures winner < |segments| && Covers(segments, winner, roll)
    ensures forall j | 0 <= j < |segments| && Covers(segments, j, roll) :: j == winner
  {
    var left: nat := roll;
    winner := |segments| - 1;
    var i := 0;
    while i < |segments|
      invariant 0 <= i <= |segments|
      invariant left + Total(segments[..i]) == roll
    {
      TotalSnoc(segments, i);
      if left < segments[i].weight {
        winner := i;
        break;
      }
      left := left - segments[i].weight;
      i := i + 1;
    }
    assert segments[..|segments|] == segments;
    assert i < |segments|;
    forall j | 0 <= j < |segments| && Covers(segments, j, roll) ensures j == winner {
      CoveredOnce(segments, roll, j, winner);
    }
  }

  lemma CoveredOnce(segments: seq<Segment>, roll: nat, i: nat, j: nat)
    requires i < |segments| && j < |segments| && Covers(segments, i, roll) && Covers(segments, j, roll)
    ensures i == j
  {
    var low, high := if i < j then i else j, if i < j then j else i;
    if low < high {
      TotalSnoc(segments, low);
      TotalMonotone(segments, low + 1, high);
    }
  }

  /** Of the rolls `0..Total`, those on which segment `i` wins. */
  ghost function WinningRolls(segments: seq<Segment>, i: nat): set<nat>
    requires i < |segments|
  {
    set r: nat | 0 <= r < Total(segments) && Covers(segments, i, r)
  }

  lemma {:induction false} IntervalSize(low: nat, size: nat, xs: set<nat>)
    requires forall x :: x in xs <==> low <= x < low + size
    ensures |xs| == size
  {
    if size == 0 {
      assert xs == {};
    } else {
      var top := low + size - 1;
      IntervalSize(low, size - 1, xs - {top});
    }
  }

  /** The draw is fair: each segment wins on as many rolls as its weight. */
  lemma DrawIsFair(segments: seq<Segment>, i: nat)
    requires i < |segments|
    ensures |WinningRolls(segments, i)| == segments[i].weight
  {
    TotalSnoc(segments, i);
    TotalMonotone(segments, i + 1, |segments|);
    assert segments[..|segments|] == segments;
    IntervalSize(Total(segments[..i]), segments[i].weight, WinningRolls(segments, i));
  }
}

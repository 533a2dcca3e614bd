/**
 Pages of a listing: the local backend's cursor paging, the loops that follow continuation
 tokens to the end, and why the one satisfies what the others need.
*/
module ObjectPages {
  import opened Options
  import opened Collections

  /** One answer of a page source. */
  datatype Page<O, T> = Page(contents: seq<O>, truncated: bool, next: Option<T>)

  function Concat<O>(parts: seq<seq<O>>): seq<O> {
    if parts == [] then [] else Concat(parts[..|parts| - 1]) + parts[|parts| - 1]
  }

  function Contents<O, T>(pages: seq<Page<O, T>>): seq<seq<O>> {
    seq(|pages|, i requires 0 <= i < |pages| => pages[i].contents)
  }

  /** The source answers these pages, in this order, and the last one says it is the last. */
  ghost predicate Answers<O, T>(source: Option<T> -> Page<O, T>, pages: seq<Page<O, T>>) {
    && pages != [] && source(None) == pages[0]
    && (forall i | 0 <= i < |pages| - 1 :: pages[i].truncated && source(pages[i].next) == pages[i + 1])
    && !pages[|pages| - 1].truncated
  }

  lemma ConcatSnoc<O>(parts: seq<seq<O>>, last: seq<O>)
    ensures Concat(parts + [last]) == Concat(parts) + last
  {
    assert (parts + [last])[..|parts|] == parts;
  }

  lemma ContentsNext<O, T>(pages: seq<Page<O, T>>, i: nat)
    requires i < |pages|
    ensures Concat(Contents(pages)[..i + 1]) == Concat(Contents(pages)[..i]) + pages[i].contents
  {
    ConcatSnoc(Contents(pages)[..i], Contents(pages)[i]);
    assert Contents(pages)[..i] + [Contents(pages)[i]] == Contents(pages)[..i + 1];
  }

  // ---------------------------------------------------------------- the walkers

  function Keep<O>(objects: seq<O>, wanted: O -> bool): seq<O> {
    if objects == [] then []
    else
      var n := |objects| - 1;
      Keep(objects[..n], wanted) + (if wanted(objects[n]) then [objects[n]] else [])
  }

  lemma {:induction false} KeepConcat<O>(a: seq<O>, b: seq<O>, wanted: O -> bool)
    ensures Keep(a + b, wanted) == Keep(a, wanted) + Keep(b, wanted)
    decreases |b|
  {
    if b == [] {
      assert a + b == a;
    } else {
      var n := |b| - 1;
      assert (a + b)[..|a + b| - 1] == a + b[..n];
      KeepConcat(a, b[..n], wanted);
    }
  }

  /** What is kept is what is wanted, as often as it is there; order is kept by `KeepConcat`. */
  lemma {:induction false} KeepExactly<O>(objects: seq<O>, wanted: O -> bool, o: O)
    ensures multiset(Keep(objects, wanted))[o] == if wanted(o) then multiset(objects)[o] else 0
  {
    if objects != [] {
      var n := |objects| - 1;
      assert objects == objects[..n] + [objects[n]];
      KeepExactly(objects[..n], wanted, o);
    }
  }

  lemma KeepNext<O>(parts: seq<seq<O>>, i: nat, wanted: O -> bool)
    requires i < |parts|
    ensures Keep(Concat(parts[..i + 1]), wanted) == Keep(Concat(parts[..i]), wanted) + Keep(parts[i], wanted)
  {
    assert parts[..i + 1] == parts[..i] + [parts[i]];
    ConcatSnoc(parts[..i], parts[i]);
    KeepConcat(Concat(parts[..i]), parts[i], wanted);
  }

  /** Follow the continuation tokens until an answer is not truncated. */
  method ListObjects<O, T>(source: Option<T> -> Page<O, T>, ghost pages: seq<Page<O, T>>) returns (objects: seq<O>)
    requires Answers(source, pages)
    ensures objects == Concat(Contents(pages))
  {
    objects := [];
    var token: Option<T> := None;
    ghost var i := 0;
    while true
      invariant 0 <= i < |pages| && source(token) == pages[i]
      invariant objects == Concat(Contents(pages)[..i])
      decreases |pages| - i
    {
      var response := source(token);
      ContentsNext(pages, i);
      objects := objects + response.contents;
      if !response.truncated {
        break;
      }
      token := response.next;
      i := i + 1;
    }
    assert i == |pages| - 1;
    assert Contents(pages)[..i + 1] == Contents(pages);
  }

  /** The same walk, keeping only some of each page. */
  method ListDemoFiles<O, T>(source: Option<T> -> Page<O, T>, ghost pages: seq<Page<O, T>>, isDemo: O -> bool)
    returns (objects: seq<O>)
    requires Answers(source, pages)
    ensures objects == Keep(Concat(Contents(pages)), isDemo)
  {
    objects := [];
    var token: Option<T> := None;
    ghost var i := 0;
    while true
      invariant 0 <= i < |pages| && source(token) == pages[i]
      invariant objects == Keep(Concat(Contents(pages)[..i]), isDemo)
      decreases |pages| - i
    {
      var response := source(token);
      ghost var before := objects;
      for j := 0 to |response.contents|
        invariant objects == before + Keep(response.contents[..j], isDemo)
      {
        assert response.contents[..j + 1][..j] == response.contents[..j];
        if isDemo(response.contents[j]) {
          objects := objects + [response.contents[j]];
        }
      }
      assert response.contents[..|response.contents|] == response.contents;
      KeepNext(Contents(pages), i, isDemo);
      if !response.truncated {
        break;
      }
      token := response.next;
      i := i + 1;
    }
    assert i == |pages| - 1;
    assert Contents(pages)[..i + 1] == Contents(pages);
  }

  // ---------------------------------------------------------------- cursor paging

  function First(objects: seq<string>, key: string): (r: Option<nat>)
    ensures r.None? <==> key !in objects
    ensures r.Some? ==>
              r.value < |objects| && objects[r.value] == key && forall j | 0 <= j < r.value :: objects[j] != key
  {
    if objects == [] then None
    else
      var n := |objects| - 1;
      var before := First(objects[..n], key);
      if before.Some? then before
      else if objects[n] == key then Some(n)
      else None
  }

  function Clamp(max: int): (limit: nat)
    ensures 1 <= limit <= 1000
    ensures limit == max || max < 1 == limit || max > 1000 == limit
  {
    if max < 1 then 1 else if max > 1000 then 1000 else max
  }

  function Min(a: nat, b: nat): nat {
    if a < b then a else b
  }

  function StartOf(objects: seq<string>, cursor: Option<string>): (start: nat)
    ensures start <= |objects|
  {
    if cursor.None? then 0
    else match First(objects, cursor.value)
         case Some(i) => i
         case None => 0
  }

  /** A page from a position on. */
  function PageAt(objects: seq<string>, start: nat, limit: nat): Page<string, string>
    requires start <= |objects|
  {
    var end := Min(start + limit, |objects|);
    Page(objects[start..end], end < |objects|, if end < |objects| then Some(objects[end]) else None)
  }

  /** A cursor is the key the page starts at; an unknown one starts over. */
  method PageOf(objects: seq<string>, cursor: Option<string>, max: int) returns (page: Page<string, string>)
    ensures page == PageAt(objects, StartOf(objects, cursor), Clamp(max))
    ensures |page.contents| <= 1000 && (objects != [] ==> page.contents != [])
    ensures cursor.None? || cursor.value !in objects ==> page.contents <= objects
    ensures cursor.Some? && cursor.value in objects ==> page.contents[0] == cursor.value
    ensures page.truncated ==> 1 <= |page.contents| && page.next.Some?
    ensures page.truncated && 1 <= max <= 1000 ==> |page.contents| == max
  {
    var start := 0;
    if cursor.Some? {
      while start < |objects| && objects[start] != cursor.value
        invariant start <= |objects| && forall j | 0 <= j < start :: objects[j] != cursor.value
      {
        start := start + 1;
      }
      if start == |objects| {
        start := 0;
      } else {
        FirstUnique(objects, cursor.value, start);
      }
    }
    var limit := if max < 1 then 1 else if max > 1000 then 1000 else max;
    var end := if start + limit < |objects| then start + limit else |objects|;
    var next := if end < |objects| then Some(objects[end]) else None;
    page := Page(objects[start..end], next.Some?, next);
  }

  lemma FirstUnique(objects: seq<string>, key: string, i: nat)
    requires i < |objects| && objects[i] == key && forall j | 0 <= j < i :: objects[j] != key
    ensures First(objects, key) == Some(i)
  {
  }

  /** Where the page after the one at `start` begins. */
  function NextStart(objects: seq<string>, start: nat, limit: nat): Option<nat> {
    if start + limit < |objects| then First(objects, objects[start + limit]) else None
  }

  /** Following the cursors from the beginning visits exactly these pages and stops. */
  ghost predicate WalkIs(objects: seq<string>, limit: nat, starts: seq<nat>) {
    && starts != [] && starts[0] == 0
    && (forall i | 0 <= i < |starts| :: starts[i] <= |objects|)
    && (forall i | 0 <= i < |starts| - 1 :: NextStart(objects, starts[i], limit) == Some(starts[i + 1]))
    && NextStart(objects, starts[|starts| - 1], limit) == None
  }

  function PagesAt(objects: seq<string>, limit: nat, starts: seq<nat>): seq<Page<string, string>>
    requires forall i | 0 <= i < |starts| :: starts[i] <= |objects|
  {
    seq(|starts|, i requires 0 <= i < |starts| => PageAt(objects, starts[i], limit))
  }

  /** Every page boundary is the first occurrence of its key; distinct keys are enough. */
  ghost predicate BoundariesFirst(objects: seq<string>, limit: nat) {
    forall k: nat | 0 < k && k * limit < |objects| :: First(objects, objects[k * limit]) == Some(k * limit)
  }

  lemma DistinctIsEnough(objects: seq<string>, limit: nat)
    requires NoRepeats(objects)
    ensures BoundariesFirst(objects, limit)
  {
    forall k: nat | 0 < k && k * limit < |objects| ensures First(objects, objects[k * limit]) == Some(k * limit) {
      FirstUnique(objects, objects[k * limit], k * limit);
    }
  }

  /** One page for an empty listing, otherwise as many as it takes. */
  function PageCount(n: nat, limit: nat): (pages: nat)
    requires limit > 0
    ensures pages >= 1 && (pages - 1) * limit <= n <= pages * limit
    ensures n > 0 ==> (pages - 1) * limit < n
  {
    if n <= limit then 1 else (PageCount(n - limit, limit) + 1)
  }

  function Aligned(n: nat, limit: nat): seq<nat>
    requires limit > 0
  {
    seq(PageCount(n, limit), i requires 0 <= i < PageCount(n, limit) => i * limit)
  }

  lemma Steps(i: nat, j: nat, limit: nat)
    requires i <= j
    ensures i * limit <= j * limit
    ensures (i + 1) * limit == i * limit + limit
  {
  }

  lemma AlignedFits(n: nat, limit: nat, i: nat)
    requires limit > 0 && i < PageCount(n, limit)
    ensures Aligned(n, limit)[i] == i * limit <= n
    ensures i + 1 < PageCount(n, limit) ==> i * limit + limit < n
    ensures i + 1 == PageCount(n, limit) ==> i * limit + limit >= n
  {
    Steps(i, PageCount(n, limit) - 1, limit);
    if i + 1 < PageCount(n, limit) {
      Steps(i + 1, PageCount(n, limit) - 1, limit);
    }
    Steps(i, i, limit);
  }

  /** When the boundaries are first occurrences, following the cursors visits the aligned
      pages, as many as the count says, and stops. */
  lemma WalkIsAligned(objects: seq<string>, limit: nat)
    requires limit > 0 && BoundariesFirst(objects, limit)
    ensures WalkIs(objects, limit, Aligned(|objects|, limit))
    ensures |Aligned(|objects|, limit)| == PageCount(|objects|, limit)
  {
    var n, starts := |objects|, Aligned(|objects|, limit);
    forall i | 0 <= i < |starts|
      ensures starts[i] <= n
      ensures i < |starts| - 1 ==> NextStart(objects, starts[i], limit) == Some(starts[i + 1])
      ensures i == |starts| - 1 ==> NextStart(objects, starts[i], limit) == None
    {
      AlignedFits(n, limit, i);
      if i < |starts| - 1 {
        AlignedFits(n, limit, i + 1);
        assert starts[i] + limit == (i + 1) * limit;
      }
    }
  }

  lemma AlignedPart(objects: seq<string>, limit: nat, i: nat)
    requires limit > 0 && i < PageCount(|objects|, limit)
    ensures i * limit <= |objects| && (i + 1) * limit == i * limit + limit
    ensures PageAt(objects, Aligned(|objects|, limit)[i], limit).contents ==
              objects[i * limit..Min((i + 1) * limit, |objects|)]
  {
    AlignedFits(|objects|, limit, i);
    Steps(i, i, limit);
  }

  predicate Slice(objects: seq<string>, parts: seq<seq<string>>, cuts: seq<nat>, j: nat)
    requires j < |parts| == |cuts| - 1
  {
    cuts[j] <= cuts[j + 1] <= |objects| && parts[j] == objects[cuts[j]..cuts[j + 1]]
  }

  lemma {:induction false} SlicesConcat(objects: seq<string>, parts: seq<seq<string>>, cuts: seq<nat>, i: nat)
    requires i <= |parts| == |cuts| - 1 && cuts[0] == 0
    requires forall j: nat | j < |parts| :: Slice(objects, parts, cuts, j)
    ensures cuts[i] <= |objects| && Concat(parts[..i]) == objects[..cuts[i]]
  {
    if i > 0 {
      SlicesConcat(objects, parts, cuts, i - 1);
      assert Slice(objects, parts, cuts, i - 1);
      assert parts[..i] == parts[..i - 1] + [parts[i - 1]];
      ConcatSnoc(parts[..i - 1], parts[i - 1]);
    }
  }

  /** The pages together are the listing. */
  lemma PagesAreTheListing(objects: seq<string>, limit: nat)
    requires limit > 0 && BoundariesFirst(objects, limit)
    ensures WalkIs(objects, limit, Aligned(|objects|, limit))
    ensures Concat(Contents(PagesAt(objects, limit, Aligned(|objects|, limit)))) == objects
  {
    WalkIsAligned(objects, limit);
    var n, m := |objects|, PageCount(|objects|, limit);
    var parts := Contents(PagesAt(objects, limit, Aligned(n, limit)));
    var cuts := seq(m + 1, j requires 0 <= j < m + 1 => Min(j * limit, n));
    forall j: nat | j < m ensures Slice(objects, parts, cuts, j) {
      AlignedPart(objects, limit, j);
    }
    SlicesConcat(objects, parts, cuts, m);
    assert parts[..m] == parts;
    assert objects[..n] == objects;
  }

  /** The local backend is a page source that the walkers can follow to the whole listing. */
  lemma LocalPagesAnswer(objects: seq<string>, max: int)
    requires BoundariesFirst(objects, Clamp(max))
    ensures var limit := Clamp(max);
            && (forall i | 0 <= i < |Aligned(|objects|, limit)| :: Aligned(|objects|, limit)[i] <= |objects|)
            && Answers((cursor: Option<string>) => PageAt(objects, StartOf(objects, cursor), limit),
                       PagesAt(objects, limit, Aligned(|objects|, limit)))
  {
    var limit := Clamp(max);
    var starts := Aligned(|objects|, limit);
    WalkIsAligned(objects, limit);
    forall i | 0 <= i < |starts| - 1
      ensures PageAt(objects, starts[i], limit).truncated
      ensures PageAt(objects, starts[i], limit).next.Some?
      ensures StartOf(objects, PageAt(objects, starts[i], limit).next) == starts[i + 1]
    {
      assert NextStart(objects, starts[i], limit) == Some(starts[i + 1]);
    }
    assert NextStart(objects, starts[|starts| - 1], limit) == None;
    LastPageEnds(objects, starts[|starts| - 1], limit);
  }

  lemma LastPageEnds(objects: seq<string>, start: nat, limit: nat)
    requires start <= |objects|
    ensures PageAt(objects, start, limit).truncated <==> NextStart(objects, start, limit).Some?
  {
  }

  // ---------------------------------------------------------------- repeated keys

  lemma NotPast(objects: seq<string>, limit: nat, starts: seq<nat>, i: nat)
    requires WalkIs(objects, limit, starts) && i + 1 < |starts|
    ensures starts[i + 1] <= starts[i] + limit
  {
    assert NextStart(objects, starts[i], limit) == Some(starts[i + 1]);
    assert First(objects, objects[starts[i] + limit]).value <= starts[i] + limit;
  }

  lemma {:induction false} AheadBy(objects: seq<string>, limit: nat, starts: seq<nat>, i: nat, k: nat)
    requires WalkIs(objects, limit, starts) && i + k < |starts|
    ensures starts[i + k] <= starts[i] + k * limit
  {
    if k > 0 {
      AheadBy(objects, limit, starts, i, k - 1);
      NotPast(objects, limit, starts, i + k - 1);
      Steps(k - 1, k, limit);
      hide *;
    }
  }

  lemma NeverAhead(objects: seq<string>, limit: nat, starts: seq<nat>, i: nat, j: nat)
    requires WalkIs(objects, limit, starts) && i <= j < |starts|
    ensures starts[j] <= starts[i] + (j - i) * limit
  {
    AheadBy(objects, limit, starts, i, j - i);
  }

  lemma FullPage(objects: seq<string>, limit: nat, starts: seq<nat>, i: nat)
    requires WalkIs(objects, limit, starts) && i < |starts| - 1
    ensures |PageAt(objects, starts[i], limit).contents| == limit
  {
    assert NextStart(objects, starts[i], limit) == Some(starts[i + 1]);
  }

  lemma {:induction false} WalkLength(objects: seq<string>, limit: nat, starts: seq<nat>, i: nat)
    requires WalkIs(objects, limit, starts) && i < |starts|
    ensures |Concat(Contents(PagesAt(objects, limit, starts))[..i])| == i * limit
  {
    if i > 0 {
      var parts := Contents(PagesAt(objects, limit, starts));
      WalkLength(objects, limit, starts, i - 1);
      FullPage(objects, limit, starts, i - 1);
      assert |parts[i - 1]| == limit;
      hide WalkIs, PagesAt, PageAt, Concat, NextStart;
      assert parts[..i] == parts[..i - 1] + [parts[i - 1]];
      ConcatSnoc(parts[..i - 1], parts[i - 1]);
      Steps(i - 1, i, limit);
    }
  }

  /** A walk shows the listing only if every page boundary is the first of its key: a repeated
      key at a boundary sends the cursor back. */
  lemma WholeWalkNeedsFirsts(objects: seq<string>, limit: nat, starts: seq<nat>)
    requires limit > 0 && WalkIs(objects, limit, starts)
    requires Concat(Contents(PagesAt(objects, limit, starts))) == objects
    ensures BoundariesFirst(objects, limit)
  {
    LastStart(objects, limit, starts);
    hide *;
    EveryBoundary(objects, limit, starts);
  }

  lemma EveryBoundary(objects: seq<string>, limit: nat, starts: seq<nat>)
    requires limit > 0 && WalkIs(objects, limit, starts) && starts[|starts| - 1] == (|starts| - 1) * limit
    ensures BoundariesFirst(objects, limit)
  {
    hide WalkIs, First;
    forall k: nat | 0 < k && k * limit < |objects| ensures First(objects, objects[k * limit]) == Some(k * limit) {
      BoundaryReached(objects, limit, starts, k);
    }
  }

  lemma LastStart(objects: seq<string>, limit: nat, starts: seq<nat>)
    requires limit > 0 && WalkIs(objects, limit, starts)
    requires Concat(Contents(PagesAt(objects, limit, starts))) == objects
    ensures starts[|starts| - 1] == (|starts| - 1) * limit
  {
    var m := |starts| - 1;
    var parts := Contents(PagesAt(objects, limit, starts));
    WalkLength(objects, limit, starts, m);
    NoneIsEnd(objects, starts[m], limit);
    assert |parts[m]| == |objects| - starts[m];
    hide *;
    assert parts == parts[..m] + [parts[m]];
    ConcatSnoc(parts[..m], parts[m]);
  }

  lemma NoneIsEnd(objects: seq<string>, start: nat, limit: nat)
    requires start <= |objects| && NextStart(objects, start, limit) == None
    ensures start + limit >= |objects|
  {
  }

  /** A walk that ends in step was in step all along. */
  lemma InStep(objects: seq<string>, limit: nat, starts: seq<nat>, k: nat)
    requires WalkIs(objects, limit, starts) && starts[|starts| - 1] == (|starts| - 1) * limit && k < |starts|
    ensures starts[k] == k * limit
  {
    var m := |starts| - 1;
    NeverAhead(objects, limit, starts, k, m);
    NeverAhead(objects, limit, starts, 0, k);
    Distribute(m, k, limit);
  }

  lemma BoundaryReached(objects: seq<string>, limit: nat, starts: seq<nat>, k: nat)
    requires limit > 0 && WalkIs(objects, limit, starts) && starts[|starts| - 1] == (|starts| - 1) * limit
    requires 0 < k && k * limit < |objects|
    ensures First(objects, objects[k * limit]) == Some(k * limit)
  {
    var m := |starts| - 1;
    NoneIsEnd(objects, starts[m], limit);
    TooFar(m, k, limit, |objects|);
    InStep(objects, limit, starts, k);
    InStep(objects, limit, starts, k - 1);
    Steps(k - 1, k - 1, limit);
    StepIsFirst(objects, limit, starts, k - 1);
  }

  lemma StepIsFirst(objects: seq<string>, limit: nat, starts: seq<nat>, i: nat)
    requires WalkIs(objects, limit, starts) && i + 1 < |starts|
    ensures starts[i] + limit < |objects| && First(objects, objects[starts[i] + limit]) == Some(starts[i + 1])
  {
    assert NextStart(objects, starts[i], limit) == Some(starts[i + 1]);
  }

  lemma TooFar(m: nat, k: nat, limit: nat, n: nat)
    requires m * limit + limit >= n > k * limit
    ensures k <= m
  {
    if k > m {
      Steps(m + 1, k, limit);
      Steps(m, m, limit);
    }
  }

  lemma Distribute(m: nat, k: nat, limit: nat)
    requires k <= m
    ensures m * limit == k * limit + (m - k) * limit
  {
  }

  /** Exactly then: some walk ends and shows the listing, each object once and in order. */
  lemma PagingIsCompleteExactly(objects: seq<string>, limit: nat)
    requires limit > 0
    ensures BoundariesFirst(objects, limit) <==>
            exists starts ::
              WalkIs(objects, limit, starts) && Concat(Contents(PagesAt(objects, limit, starts))) == objects
  {
    if BoundariesFirst(objects, limit) {
      PagesAreTheListing(objects, limit);
    }
    forall starts | WalkIs(objects, limit, starts) && Concat(Contents(PagesAt(objects, limit, starts))) == objects
      ensures BoundariesFirst(objects, limit)
    {
      WholeWalkNeedsFirsts(objects, limit, starts);
    }
  }

  /** Two objects with one key, a page each: the walk never ends. */
  lemma RepeatedKeyNeverEnds(key: string, starts: seq<nat>)
    ensures !WalkIs([key, key], 1, starts)
  {
    if WalkIs([key, key], 1, starts) {
      FirstUnique([key, key], key, 0);
      StuckAtZero(key, starts, |starts| - 1);
    }
  }

  lemma {:induction false} StuckAtZero(key: string, starts: seq<nat>, i: nat)
    requires WalkIs([key, key], 1, starts) && i < |starts| && First([key, key], key) == Some(0)
    ensures starts[i] == 0 && NextStart([key, key], starts[i], 1) == Some(0)
  {
    if i > 0 {
      StuckAtZero(key, starts, i - 1);
      assert NextStart([key, key], starts[i - 1], 1) == Some(starts[i]);
    }
  }
}

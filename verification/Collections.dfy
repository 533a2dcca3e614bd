/** Sequences without repetition, their elements, and sizes of sets. */
module Collections {

  predicate NoRepeats<T(==)>(xs: seq<T>) {
    forall i, j | 0 <= i < j < |xs| :: xs[i] != xs[j]
  }

  function Elements<T>(xs: seq<T>): set<T> {
    set x | x in xs
  }

  lemma {:induction false} SizeOfElements<T>(xs: seq<T>)
    requires NoRepeats(xs)
    ensures |Elements(xs)| == |xs|
  {
    if xs != [] {
      var rest := xs[..|xs| - 1];
      SizeOfElements(rest);
      var last := xs[|xs| - 1];
      assert xs == rest + [last];
      assert last !in rest;
      assert Elements(xs) == Elements(rest) + {last};
    }
  }

  lemma {:induction false} Smaller<T>(part: set<T>, whole: set<T>)
    requires part <= whole
    ensures |part| <= |whole|
  {
    if part != {} {
      var x :| x in part;
      Smaller(part - {x}, whole - {x});
    }
  }

  /** There is always a number not yet taken. */
  lemma {:induction false} Unused(taken: set<nat>) returns (n: nat)
    ensures forall c | c in taken :: c < n
  {
    if taken == {} {
      n := 0;
    } else {
      var c :| c in taken;
      n := Unused(taken - {c});
      n := if c < n then n else c + 1;
      assert forall e | e in taken && e != c :: e in taken - {c};
    }
  }
}

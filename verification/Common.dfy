/** Small shared vocabulary: optional values, results and partial updates. */
module Common {
  datatype Option<+T> = None | Some(value: T)

  datatype Result<+T, +E> = Ok(value: T) | Err(error: E)

  /** One field of a partial record update: an absent field keeps its old value. */
  datatype Patch<+T> = Keep | Put(value: T)

  function Patched<T>(stored: T, patch: Patch<T>): T {
    if patch.Put? then patch.value else stored
  }

  /** Instants, in milliseconds. */
  type Time = int

  /** `o` is a bound that has not been reached at `t`; no bound is never reached. */
  predicate OpenAt(o: Option<Time>, t: Time) {
    o.Some? ==> t < o.value
  }

  lemma Associative<T>(a: seq<T>, b: seq<T>, c: seq<T>)
    ensures (a + b) + c == a + (b + c)
  {
  }

  lemma SubsetCardinality<T>(a: set<T>, b: set<T>)
    requires a <= b
    ensures |a| <= |b|
  {
    if a != {} {
      var x :| x in a;
      SubsetCardinality(a - {x}, b - {x});
    }
  }

  // ----- insertion-ordered sets -----

  /** The distinct values in the order of their first occurrence, as spreading a set built from the list gives. */
  function Distinct<T(==)>(s: seq<T>): (d: seq<T>) {
    if s == [] then []
    else
      var d := Distinct(s[..|s| - 1]);
      if s[|s| - 1] in d then d else d + [s[|s| - 1]]
  }

  ghost predicate NoDuplicates<T>(s: seq<T>) {
    forall i, j :: 0 <= i < j < |s| ==> s[i] != s[j]
  }

  /** `x` occurs in `s`, first at position `p`. */
  ghost predicate FirstAt<T>(s: seq<T>, x: T, p: nat) {
    p < |s| && s[p] == x && x !in s[..p]
  }

  lemma {:induction false} DistinctKeepsExactly<T>(s: seq<T>)
    ensures NoDuplicates(Distinct(s)) && |Distinct(s)| <= |s|
    ensures forall x :: x in Distinct(s) <==> x in s
  {
    if s != [] {
      var front := s[..|s| - 1];
      DistinctKeepsExactly(front);
      assert s == front + [s[|s| - 1]];
    }
  }

  /** The order of the distinct values is the order of their first occurrences. */
  lemma {:induction false} DistinctKeepsOrder<T>(s: seq<T>, i: nat, j: nat, p: nat, q: nat)
    requires i < j < |Distinct(s)| && FirstAt(s, Distinct(s)[i], p) && FirstAt(s, Distinct(s)[j], q)
    ensures p < q
  {
    var front := s[..|s| - 1];
    var d := Distinct(front);
    DistinctKeepsExactly(front);
    assert s == front + [s[|s| - 1]];
    assert forall k :: 0 <= k < |front| ==> front[k] in d;
    assert d[i] in front && p < |front|;
    if j < |d| {
      assert d[j] in front && q < |front|;
      assert front[..p] == s[..p] && front[..q] == s[..q];
      DistinctKeepsOrder(front, i, j, p, q);
    }
  }

  lemma {:induction false} DistinctStep<T>(s: seq<T>, x: T)
    ensures Distinct(s + [x]) == if x in Distinct(s) then Distinct(s) else Distinct(s) + [x]
  {
    assert (s + [x])[..|s|] == s;
  }

  /** Removing duplicates early or late makes no difference. */
  lemma {:induction false} DistinctAbsorbs<T>(a: seq<T>, b: seq<T>)
    ensures Distinct(Distinct(a) + Distinct(b)) == Distinct(a + b)
    decreases |b|
  {
    if b == [] {
      assert a + b == a && Distinct(a) + Distinct(b) == Distinct(a);
      DistinctIdempotent(a);
    } else {
      var front, x := b[..|b| - 1], b[|b| - 1];
      DistinctAbsorbs(a, front);
      assert a + b == (a + front) + [x] && b == front + [x];
      DistinctStep(a + front, x);
      DistinctStep(front, x);
      DistinctKeepsExactly(a + front);
      DistinctKeepsExactly(front);
      hide *;
      if x !in Distinct(front) {
        Associative(Distinct(a), Distinct(front), [x]);
        DistinctStep(Distinct(a) + Distinct(front), x);
      } else {
        assert x in a + front;
      }
    }
  }

  lemma {:induction false} DistinctIdempotent<T>(a: seq<T>)
    ensures Distinct(Distinct(a)) == Distinct(a)
  {
    DistinctKeepsExactly(a);
    NothingToRemove(Distinct(a));
  }

  lemma {:induction false} NothingToRemove<T>(s: seq<T>)
    requires NoDuplicates(s)
    ensures Distinct(s) == s
  {
    if s != [] {
      var front := s[..|s| - 1];
      NothingToRemove(front);
      assert s == front + [s[|s| - 1]];
    }
  }
}

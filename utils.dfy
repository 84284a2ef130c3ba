/**
 * uniqStrings: the distinct strings of a slice, collected through a Go map.
 * The output follows the map's iteration order, which Go leaves
 * unspecified; the model picks each next key with a nondeterministic
 * choice, so only facts that hold for every order are proved.
 */
module Utils {

  /** The set of elements of a sequence. */
  function Elements<T>(s: seq<T>): set<T> {
    set x | x in s
  }

  /** No element occurs twice. */
  predicate NoDuplicates<T(==)>(s: seq<T>) {
    forall i, j | 0 <= i < j < |s| :: s[i] != s[j]
  }

  /** A duplicate-free sequence has as many elements as its set. */
  lemma {:induction false} DistinctCardinality<T>(s: seq<T>)
    requires NoDuplicates(s)
    ensures |Elements(s)| == |s|
    decreases |s|
  {
    if s != [] {
      var p := s[..|s| - 1];
      DistinctCardinality(p);
      assert Elements(s) == Elements(p) + {s[|s| - 1]};
      assert s[|s| - 1] !in Elements(p);
    }
  }

  /** A sequence has at most as many distinct elements as it has elements. */
  lemma {:induction false} ElementsBound<T>(s: seq<T>)
    ensures |Elements(s)| <= |s|
    decreases |s|
  {
    if s != [] {
      var p := s[..|s| - 1];
      ElementsBound(p);
      assert Elements(s) == Elements(p) + {s[|s| - 1]};
    }
  }

  /** In a duplicate-free sequence each element occurs exactly once. */
  lemma {:induction false} DistinctMultiplicity<T>(s: seq<T>, x: T)
    requires NoDuplicates(s)
    ensures multiset(s)[x] == if x in s then 1 else 0
    decreases |s|
  {
    if s != [] {
      var p := s[..|s| - 1];
      DistinctMultiplicity(p, x);
      assert s == p + [s[|s| - 1]];
      assert p[..] == p;
    }
  }

  /** Two duplicate-free sequences with the same elements are permutations of each other. */
  lemma DistinctPermutation<T>(a: seq<T>, b: seq<T>)
    requires NoDuplicates(a) && NoDuplicates(b) && Elements(a) == Elements(b)
    ensures multiset(a) == multiset(b)
  {
    forall x ensures multiset(a)[x] == multiset(b)[x] {
      DistinctMultiplicity(a, x);
      DistinctMultiplicity(b, x);
      assert x in a <==> x in Elements(a);
      assert x in b <==> x in Elements(b);
    }
  }

  /** A permutation of a duplicate-free sequence is duplicate-free. */
  lemma PermutationKeepsDistinct<T>(a: seq<T>, b: seq<T>)
    requires NoDuplicates(a) && multiset(a) == multiset(b)
    ensures NoDuplicates(b)
  {
    forall i, j | 0 <= i < j < |b| ensures b[i] != b[j] {
      if b[i] == b[j] {
        var x := b[i];
        assert b == b[..i] + [x] + b[i + 1..j] + [x] + b[j + 1..];
        assert multiset(b)[x] >= 2;
        DistinctMultiplicity(a, x);
        assert false;
      }
    }
  }

  /** The elements of a longer prefix. */
  lemma PrefixElements<T>(s: seq<T>, i: int)
    requires 0 <= i < |s|
    ensures Elements(s[..i + 1]) == Elements(s[..i]) + {s[i]}
  {
    assert s[..i + 1] == s[..i] + [s[i]];
  }

  /**
   * uniqStrings: no duplicates, exactly the input's strings, and so as
   * many as there are distinct inputs.
   */
  method UniqStrings(xs: seq<string>) returns (res: seq<string>)
    ensures NoDuplicates(res)
    ensures Elements(res) == Elements(xs)
    ensures |res| == |Elements(xs)| <= |xs|
  {
    var seen: map<string, bool> := map[];
    for i := 0 to |xs|
      invariant seen.Keys == Elements(xs[..i])
    {
      PrefixElements(xs, i);
      if xs[i] !in seen {
        seen := seen[xs[i] := true];
      }
    }
    assert xs[..|xs|] == xs;

    res := [];
    var rest := seen.Keys;
    while rest != {}
      invariant rest <= seen.Keys
      invariant forall i | 0 <= i < |res| :: res[i] in seen && res[i] !in rest
      invariant NoDuplicates(res)
      invariant forall k | k in seen && k !in rest :: k in res
      invariant |res| + |rest| == |seen.Keys|
      decreases |rest|
    {
      var k :| k in rest;
      res := res + [k];
      rest := rest - {k};
    }
    assert Elements(res) == seen.Keys;
    DistinctCardinality(res);
    ElementsBound(xs);
  }
}

/**
 * In-place sorting as the plugin uses it: sort.SliceStable on the merged
 * records, sort.Slice on check options and slices.Sort on instance names.
 * One insertion sort serves all three; its result is specified by the
 * function SortSeq, whose sortedness, permutation and stability are proved.
 */
module Sorting {

  /** less is a strict weak order: asymmetric, transitive, and "not less" is transitive too. */
  ghost predicate StrictWeakOrder<T(!new)>(less: (T, T) -> bool) {
    && (forall x, y :: less(x, y) ==> !less(y, x))
    && (forall x, y, z :: less(x, y) && less(y, z) ==> less(x, z))
    && (forall x, y, z :: !less(x, y) && !less(y, z) ==> !less(x, z))
  }

  /** No element is less than one before it. */
  ghost predicate SortedBy<T>(s: seq<T>, less: (T, T) -> bool) {
    forall i, j | 0 <= i < j < |s| :: !less(s[j], s[i])
  }

  /** Neither is less than the other: the two compare equal. */
  predicate Equivalent<T>(x: T, y: T, less: (T, T) -> bool) {
    !less(x, y) && !less(y, x)
  }

  /** The elements of s that compare equal to e, in their order in s. */
  function Ties<T>(s: seq<T>, e: T, less: (T, T) -> bool): seq<T>
    decreases |s|
  {
    if s == [] then []
    else Ties(s[..|s| - 1], e, less) + (if Equivalent(s[|s| - 1], e, less) then [s[|s| - 1]] else [])
  }

  /** s with x inserted after every element that x is not less than, scanning from the end. */
  function Insert<T>(s: seq<T>, x: T, less: (T, T) -> bool): (r: seq<T>)
    ensures |r| == |s| + 1
    decreases |s|
  {
    if s == [] || !less(x, s[|s| - 1]) then s + [x]
    else
      Insert(s[..|s| - 1], x, less) + [s[|s| - 1]]
  }

  /** Insertion sort as a function: the specification of the in-place sort. */
  function SortSeq<T>(s: seq<T>, less: (T, T) -> bool): (r: seq<T>)
    ensures |r| == |s|
    decreases |s|
  {
    if s == [] then []
    else
      Insert(SortSeq(s[..|s| - 1], less), s[|s| - 1], less)
  }

  /** Inserting adds x and keeps everything else. */
  lemma {:induction false} InsertPermutes<T>(s: seq<T>, x: T, less: (T, T) -> bool)
    ensures multiset(Insert(s, x, less)) == multiset(s) + multiset{x}
    decreases |s|
  {
    if s != [] && less(x, s[|s| - 1]) {
      var p := s[..|s| - 1];
      InsertPermutes(p, x, less);
      assert s == p + [s[|s| - 1]];
    }
  }

  /** The insertion sort returns a permutation of its input. */
  lemma {:induction false} SortSeqPermutes<T>(s: seq<T>, less: (T, T) -> bool)
    ensures multiset(SortSeq(s, less)) == multiset(s)
    decreases |s|
  {
    if s != [] {
      var p := s[..|s| - 1];
      SortSeqPermutes(p, less);
      InsertPermutes(SortSeq(p, less), s[|s| - 1], less);
      assert s == p + [s[|s| - 1]];
    }
  }

  lemma {:induction false} InsertSorted<T(!new)>(s: seq<T>, x: T, less: (T, T) -> bool)
    requires StrictWeakOrder(less) && SortedBy(s, less)
    ensures SortedBy(Insert(s, x, less), less)
    decreases |s|
  {
    if s == [] {
    } else if !less(x, s[|s| - 1]) {
      var y := s[|s| - 1];
      forall i | 0 <= i < |s| ensures !less(x, s[i]) {
        if i < |s| - 1 {
          assert !less(y, s[i]);
        }
      }
    } else {
      var p, y := s[..|s| - 1], s[|s| - 1];
      InsertSorted(p, x, less);
      var q := Insert(p, x, less);
      InsertPermutes(p, x, less);
      forall i | 0 <= i < |q| ensures !less(y, q[i]) {
        assert q[i] in multiset(q);
        if q[i] != x {
          assert q[i] in multiset(p);
          var k :| 0 <= k < |p| && p[k] == q[i];
          assert !less(s[|s| - 1], s[k]);
        }
      }
    }
  }

  /** The insertion sort returns its input sorted. */
  lemma {:induction false} SortSeqSorted<T(!new)>(s: seq<T>, less: (T, T) -> bool)
    requires StrictWeakOrder(less)
    ensures SortedBy(SortSeq(s, less), less)
    decreases |s|
  {
    if s != [] {
      SortSeqSorted(s[..|s| - 1], less);
      InsertSorted(SortSeq(s[..|s| - 1], less), s[|s| - 1], less);
    }
  }

  lemma {:induction false} TiesAppend<T>(a: seq<T>, b: seq<T>, e: T, less: (T, T) -> bool)
    ensures Ties(a + b, e, less) == Ties(a, e, less) + Ties(b, e, less)
    decreases |b|
  {
    if b != [] {
      assert (a + b)[..|a + b| - 1] == a + b[..|b| - 1];
      TiesAppend(a, b[..|b| - 1], e, less);
    } else {
      assert a + b == a;
    }
  }

  /** Inserting x adds x to the ties of e when x compares equal to e, after the ones already there. */
  lemma {:induction false} InsertTies<T(!new)>(s: seq<T>, x: T, e: T, less: (T, T) -> bool)
    requires StrictWeakOrder(less)
    ensures Ties(Insert(s, x, less), e, less) == Ties(s, e, less) + Ties([x], e, less)
    decreases |s|
  {
    assert Ties([x], e, less) == (if Equivalent(x, e, less) then [x] else []) by {
      assert [x][..0] == [];
    }
    if s == [] || !less(x, s[|s| - 1]) {
      TiesAppend(s, [x], e, less);
    } else {
      var p, y := s[..|s| - 1], s[|s| - 1];
      InsertTies(p, x, e, less);
      var q := Insert(p, x, less);
      assert Insert(s, x, less) == q + [y];
      assert Ties(q + [y], e, less) == Ties(q, e, less) + (if Equivalent(y, e, less) then [y] else []) by {
        assert (q + [y])[..|q + [y]| - 1] == q;
      }
      assert Ties(s, e, less) == Ties(p, e, less) + (if Equivalent(y, e, less) then [y] else []);
    }
  }

  /** Stability: for every e, the elements comparing equal to e keep their input order. */
  lemma {:induction false} SortSeqStable<T(!new)>(s: seq<T>, e: T, less: (T, T) -> bool)
    requires StrictWeakOrder(less)
    ensures Ties(SortSeq(s, less), e, less) == Ties(s, e, less)
    decreases |s|
  {
    if s != [] {
      var p, y := s[..|s| - 1], s[|s| - 1];
      SortSeqStable(p, e, less);
      InsertTies(SortSeq(p, less), y, e, less);
      TiesAppend(p, [y], e, less);
      assert s == p + [y];
    }
  }

  /**
   * Insert places x right after the last element x is not less than:
   * at j, when every element from j on is greater than x.
   */
  lemma {:induction false} InsertSplit<T>(s: seq<T>, x: T, j: int, less: (T, T) -> bool)
    requires 0 <= j <= |s|
    requires j == 0 || !less(x, s[j - 1])
    requires forall m | j <= m < |s| :: less(x, s[m])
    ensures Insert(s, x, less) == s[..j] + [x] + s[j..]
    decreases |s|
  {
    if j < |s| {
      var p := s[..|s| - 1];
      assert less(x, s[|s| - 1]);
      assert Insert(s, x, less) == Insert(p, x, less) + [s[|s| - 1]];
      assert p[..j] == s[..j];
      InsertSplit(p, x, j, less);
      assert s[j..] == p[j..] + [s[|s| - 1]];
    } else {
      assert s[..j] == s;
    }
  }

  /**
   * One step of insertion sort: the element at index i moves left past
   * every element it is less than, into the sorted prefix a[..i].
   */
  method InsertAt<T>(a: array<T>, i: int, less: (T, T) -> bool)
    requires 0 <= i < a.Length
    modifies a
    ensures a[..i + 1] == Insert(old(a[..i]), old(a[i]), less)
    ensures a[i + 1..] == old(a[i + 1..])
  {
    ghost var sorted := a[..i];
    ghost var rest := a[i + 1..];
    var x := a[i];
    var j := i;
    while j > 0 && less(x, a[j - 1])
      invariant 0 <= j <= i
      invariant a[..j] == sorted[..j]
      invariant a[j + 1..i + 1] == sorted[j..]
      invariant a[i + 1..] == rest
      invariant forall m | j <= m < i :: less(x, sorted[m])
    {
      a[j] := a[j - 1];
      j := j - 1;
    }
    a[j] := x;
    assert a[..i + 1] == sorted[..j] + [x] + sorted[j..];
    InsertSplit(sorted, x, j, less);
  }

  /**
   * Insertion sort in place. Equal elements are never moved past each
   * other, so the result is the stable sort SortSeq of the old contents.
   */
  method InsertionSort<T>(a: array<T>, less: (T, T) -> bool)
    modifies a
    ensures a[..] == SortSeq(old(a[..]), less)
  {
    ghost var input := a[..];
    var i := 0;
    while i < a.Length
      invariant 0 <= i <= a.Length
      invariant a[..i] == SortSeq(input[..i], less)
      invariant a[i..] == input[i..]
    {
      InsertAt(a, i, less);
      assert input[..i + 1][..i] == input[..i];
      assert SortSeq(input[..i + 1], less) == Insert(SortSeq(input[..i], less), input[i], less);
      i := i + 1;
    }
    assert input[..a.Length] == input;
  }

  /** Byte-wise (here code-point-wise) lexicographic order on strings, as Go's `<` on strings. */
  predicate LexLess(a: string, b: string)
    decreases |a|
  {
    if |b| == 0 then false
    else if |a| == 0 then true
    else if a[0] != b[0] then a[0] < b[0]
    else LexLess(a[1..], b[1..])
  }

  lemma {:induction false} LexLessIrreflexive(a: string)
    ensures !LexLess(a, a)
    decreases |a|
  {
    if |a| > 0 {
      LexLessIrreflexive(a[1..]);
    }
  }

  lemma {:induction false} LexLessTransitive(a: string, b: string, c: string)
    requires LexLess(a, b) && LexLess(b, c)
    ensures LexLess(a, c)
    decreases |a|
  {
    if |a| > 0 && a[0] == b[0] && b[0] == c[0] {
      LexLessTransitive(a[1..], b[1..], c[1..]);
    }
  }

  lemma {:induction false} LexLessTotal(a: string, b: string)
    ensures a == b || LexLess(a, b) || LexLess(b, a)
    decreases |a|
  {
    if |a| > 0 && |b| > 0 && a[0] == b[0] {
      LexLessTotal(a[1..], b[1..]);
      if a[1..] == b[1..] {
        assert a == [a[0]] + a[1..] && b == [b[0]] + b[1..];
      }
    }
  }

  /** Go's string order is a strict total order, in particular a strict weak one. */
  lemma LexLessStrictWeakOrder()
    ensures StrictWeakOrder(LexLess)
    ensures forall a, b :: Equivalent(a, b, LexLess) ==> a == b
  {
    forall a, b | LexLess(a, b) ensures !LexLess(b, a) {
      if LexLess(b, a) {
        LexLessTransitive(a, b, a);
        LexLessIrreflexive(a);
      }
    }
    forall a, b, c | LexLess(a, b) && LexLess(b, c) ensures LexLess(a, c) {
      LexLessTransitive(a, b, c);
    }
    forall a, b | Equivalent(a, b, LexLess) ensures a == b {
      LexLessTotal(a, b);
    }
    forall a, b, c | !LexLess(a, b) && !LexLess(b, c) ensures !LexLess(a, c) {
      LexLessTotal(a, b);
      LexLessTotal(b, c);
      assert c == a || LexLess(c, a) by {
        if a != b && b != c {
          LexLessTransitive(c, b, a);
        }
      }
      if c == a {
        LexLessIrreflexive(a);
      } else if LexLess(a, c) {
        LexLessTransitive(a, c, a);
        LexLessIrreflexive(a);
      }
    }
  }
}

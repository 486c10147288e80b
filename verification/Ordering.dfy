/** Byte-wise order of strings and sorting under a comparison that may have ties. */
module Ordering {
  import opened Foundation

  /** Lexicographic order, as Go compares strings and byte slices. */
  predicate LexLess(a: seq<int>, b: seq<int>) {
    if b == [] then false
    else if a == [] then true
    else a[0] < b[0] || (a[0] == b[0] && LexLess(a[1..], b[1..]))
  }

  lemma {:induction false} LexTrichotomy(a: seq<int>, b: seq<int>)
    ensures LexLess(a, b) ==> !LexLess(b, a) && a != b
    ensures !LexLess(a, b) && !LexLess(b, a) ==> a == b
  {
    if a == [] || b == [] {
    } else if a[0] == b[0] {
      LexTrichotomy(a[1..], b[1..]);
      assert a == [a[0]] + a[1..] && b == [b[0]] + b[1..];
    }
  }

  lemma {:induction false} LexTransitive(a: seq<int>, b: seq<int>, c: seq<int>)
    requires LexLess(a, b) && LexLess(b, c)
    ensures LexLess(a, c)
  {
    if a != [] && a[0] == b[0] == c[0] {
      LexTransitive(a[1..], b[1..], c[1..]);
    }
  }

  /** a and b agree before place n; there a has ended, or has the smaller value. */
  predicate SplitAt(a: seq<int>, b: seq<int>, n: nat) {
    n <= |a| && n < |b| && a[..n] == b[..n] && (n == |a| || a[n] < b[n])
  }

  /** The order of a dictionary. */
  ghost predicate ComesBefore(a: seq<int>, b: seq<int>) { exists n: nat :: SplitAt(a, b, n) }

  lemma {:induction false} LexLessIsDictionary(a: seq<int>, b: seq<int>)
    ensures LexLess(a, b) <==> ComesBefore(a, b)
  {
    if b == [] || a == [] || a[0] != b[0] {
      if LexLess(a, b) { assert SplitAt(a, b, 0); }
    } else {
      LexLessIsDictionary(a[1..], b[1..]);
      if n: nat :| SplitAt(a[1..], b[1..], n) {
        assert a[..n + 1] == [a[0]] + a[1..][..n] && b[..n + 1] == [b[0]] + b[1..][..n];
        assert SplitAt(a, b, n + 1);
      }
      if n: nat :| SplitAt(a, b, n) {
        assert a[1..][..n - 1] == a[..n][1..] && b[1..][..n - 1] == b[..n][1..];
        assert SplitAt(a[1..], b[1..], n - 1);
      }
    }
  }

  /** What sort.Slice demands of its comparison: a strict weak order. */
  ghost predicate IsOrder<T(!new)>(less: (T, T) -> bool) {
    && (forall a, b :: less(a, b) ==> !less(b, a))
    && (forall a, b, c :: !less(b, a) && !less(c, b) ==> !less(c, a))
  }

  ghost predicate Sorted<T>(s: seq<T>, less: (T, T) -> bool) {
    forall i, j {:trigger less(s[j], s[i])} :: 0 <= i < j < |s| ==> !less(s[j], s[i])
  }

  lemma SortedAt<T>(s: seq<T>, less: (T, T) -> bool, i: nat, j: nat)
    requires Sorted(s, less) && i < j < |s|
    ensures !less(s[j], s[i])
  {
  }

  /** In a sorted list a repeat shows between neighbours: what holds between neighbours and passes on to the right
      holds between all. */
  lemma NeighboursTell<T(!new)>(s: seq<T>, less: (T, T) -> bool, apart: (T, T) -> bool)
    requires Sorted(s, less) && forall k {:trigger s[k]} :: 1 <= k < |s| ==> apart(s[k - 1], s[k])
    requires forall x, y, z :: apart(x, y) && !less(y, x) && !less(z, y) ==> apart(x, z)
    ensures forall i, j :: 0 <= i < j < |s| ==> apart(s[i], s[j])
  {
    forall i, j | 0 <= i < j < |s|
      ensures apart(s[i], s[j])
    {
      assert apart(s[i + 1 - 1], s[i + 1]);
      SortedAt(s, less, i, i + 1);
      if i + 1 < j { SortedAt(s, less, i + 1, j); }
    }
  }

  /** Elements of s that compare as ties are equal. */
  ghost predicate TieFree<T>(s: seq<T>, less: (T, T) -> bool) {
    forall i, j {:trigger less(s[i], s[j])} ::
      0 <= i < |s| && 0 <= j < |s| && !less(s[i], s[j]) && !less(s[j], s[i]) ==> s[i] == s[j]
  }

  /** Sorts by insertion. Only the contract is used: the result is some sorted rearrangement, and the
      relative order of ties is left open, as it is for sort.Slice. */
  method SortSlice<T(!new)>(s: seq<T>, less: (T, T) -> bool) returns (r: seq<T>)
    requires IsOrder(less)
    ensures Sorted(r, less)
    ensures multiset(r) == multiset(s)
  {
    r := [];
    for n := 0 to |s|
      invariant Sorted(r, less)
      invariant multiset(r) == multiset(s[..n])
    {
      assert s[..n + 1] == s[..n] + [s[n]];
      InsertSorted(s[n], r, less);
      r := Insert(s[n], r, less);
    }
    assert s[..|s|] == s;
  }

  /** A functional reference sort, used in specifications. */
  function SortBy<T>(s: seq<T>, less: (T, T) -> bool): seq<T> {
    if s == [] then [] else Insert(s[0], SortBy(s[1..], less), less)
  }

  function Insert<T>(x: T, s: seq<T>, less: (T, T) -> bool): seq<T> {
    if s != [] && less(s[0], x) then [s[0]] + Insert(x, s[1..], less) else [x] + s
  }

  lemma {:induction false} SortBySorts<T(!new)>(s: seq<T>, less: (T, T) -> bool)
    requires IsOrder(less)
    ensures Sorted(SortBy(s, less), less) && multiset(SortBy(s, less)) == multiset(s)
  {
    if s != [] {
      SortBySorts(s[1..], less);
      InsertSorted(s[0], SortBy(s[1..], less), less);
      assert s == [s[0]] + s[1..];
    }
  }

  lemma {:induction false} InsertSorted<T(!new)>(x: T, s: seq<T>, less: (T, T) -> bool)
    requires IsOrder(less) && Sorted(s, less)
    ensures Sorted(Insert(x, s, less), less) && multiset(Insert(x, s, less)) == multiset(s) + multiset{x}
  {
    if s != [] && less(s[0], x) {
      var rest := Insert(x, s[1..], less);
      TailIsSorted(s, less);
      InsertSorted(x, s[1..], less);
      forall j | 0 <= j < |rest|
        ensures !less(rest[j], s[0])
      {
        assert rest[j] in multiset(rest);
        if rest[j] != x {
          var k :| 0 <= k < |s| - 1 && s[1..][k] == rest[j];
          SortedAt(s, less, 0, k + 1);
        }
      }
      PrependLeast(s[0], rest, less);
    } else {
      forall j | 0 <= j < |s|
        ensures !less(s[j], x)
      {
        if j > 0 { SortedAt(s, less, 0, j); }
      }
      PrependLeast(x, s, less);
    }
  }

  lemma PrependLeast<T>(x: T, s: seq<T>, less: (T, T) -> bool)
    requires Sorted(s, less) && forall j :: 0 <= j < |s| ==> !less(s[j], x)
    ensures Sorted([x] + s, less) && multiset([x] + s) == multiset(s) + multiset{x}
  {
    forall i, j | 0 <= i < j < |[x] + s|
      ensures !less(([x] + s)[j], ([x] + s)[i])
    {
      if i > 0 { SortedAt(s, less, i - 1, j - 1); }
    }
  }

  /** Without ties between different elements the sorted rearrangement is unique, so an unstable sort of
      any permutation yields the same sequence. */
  lemma {:induction false} SortedUnique<T(!new)>(a: seq<T>, b: seq<T>, less: (T, T) -> bool)
    requires IsOrder(less)
    requires Sorted(a, less) && Sorted(b, less)
    requires multiset(a) == multiset(b)
    requires TieFree(a, less)
    ensures a == b
  {
    assert |multiset(a)| == |a| && |multiset(b)| == |b|;
    if a != [] {
      SameLeast(a, b, less);
      TailIsSorted(a, less);
      TailIsSorted(b, less);
      assert TieFree(a[1..], less) by {
        forall i, j | 0 <= i < |a| - 1 && 0 <= j < |a| - 1 && !less(a[1..][i], a[1..][j]) && !less(a[1..][j], a[1..][i])
          ensures a[1..][i] == a[1..][j]
        {
          assert !less(a[i + 1], a[j + 1]);
        }
      }
      SortedUnique(a[1..], b[1..], less);
      assert a == [a[0]] + a[1..] && b == [b[0]] + b[1..];
    }
  }

  lemma TailIsSorted<T(!new)>(a: seq<T>, less: (T, T) -> bool)
    requires Sorted(a, less) && a != []
    ensures Sorted(a[1..], less) && multiset(a[1..]) == multiset(a) - multiset{a[0]}
  {
    assert a == [a[0]] + a[1..];
    forall i, j | 0 <= i < j < |a| - 1
      ensures !less(a[1..][j], a[1..][i])
    {
      SortedAt(a, less, i + 1, j + 1);
    }
  }

  lemma SameLeast<T(!new)>(a: seq<T>, b: seq<T>, less: (T, T) -> bool)
    requires IsOrder(less) && Sorted(a, less) && Sorted(b, less) && TieFree(a, less)
    requires |a| == |b| > 0 && multiset(a) == multiset(b)
    ensures a[0] == b[0]
  {
    assert a[0] in multiset(b) && b[0] in multiset(a);
    var i :| 0 <= i < |b| && b[i] == a[0];
    var j :| 0 <= j < |a| && a[j] == b[0];
    if i > 0 { SortedAt(b, less, 0, i); }
    if j > 0 { SortedAt(a, less, 0, j); }
    if i > 0 && j > 0 { assert !less(a[0], a[j]) && !less(a[j], a[0]); }
  }

  /** Having no repeats does not depend on the order of a sequence. */
  lemma {:induction false} DistinctIsMultiplicityOne<T>(s: seq<T>)
    ensures Distinct(s) <==> forall x :: x in s ==> multiset(s)[x] == 1
  {
    if s != [] {
      var last, init := s[|s| - 1], s[..|s| - 1];
      assert s == init + [last];
      assert Distinct(s) <==> Distinct(init) && last !in init;
      DistinctIsMultiplicityOne(init);
      assert multiset(s) == multiset(init) + multiset{last};
      if Distinct(s) {
        forall x | x in s ensures multiset(s)[x] == 1 { if x != last { assert x in init; } }
      } else if Distinct(init) {
        assert last in init && last in multiset(init);
        assert multiset(s)[last] == multiset(init)[last] + 1;
      } else {
        var x :| x in init && multiset(init)[x] != 1;
        assert x in multiset(init) && multiset(s)[x] >= multiset(init)[x] >= 2 && x in s;
      }
    }
  }

  lemma DistinctPermutation<T>(a: seq<T>, b: seq<T>)
    requires multiset(a) == multiset(b)
    ensures Distinct(a) <==> Distinct(b)
    ensures |a| == |b|
    ensures forall x :: x in a <==> x in b
  {
    DistinctIsMultiplicityOne(a);
    DistinctIsMultiplicityOne(b);
    forall x
      ensures x in a <==> x in b
    {
      assert x in a <==> x in multiset(a);
    }
    assert |multiset(a)| == |a|;
  }

  function Mapped<A, B>(s: seq<A>, f: A -> B): seq<B> { seq(|s|, i requires 0 <= i < |s| => f(s[i])) }

  lemma TakenOut<A>(s: seq<A>, k: nat)
    requires k < |s|
    ensures multiset(s) == multiset{s[k]} + multiset(s[..k] + s[k + 1..])
  {
    assert s == s[..k] + [s[k]] + s[k + 1..];
  }

  lemma MappedWithout<A, B>(s: seq<A>, f: A -> B, k: nat)
    requires k < |s|
    ensures multiset(Mapped(s, f)) == multiset{f(s[k])} + multiset(Mapped(s[..k] + s[k + 1..], f))
  {
    TakenOut(Mapped(s, f), k);
    assert Mapped(s[..k] + s[k + 1..], f) == Mapped(s, f)[..k] + Mapped(s, f)[k + 1..];
  }

  /** Mapping the elements of a permutation gives a permutation. */
  lemma {:induction false} MappedPermutation<A, B>(s: seq<A>, t: seq<A>, f: A -> B)
    requires multiset(s) == multiset(t)
    ensures multiset(Mapped(s, f)) == multiset(Mapped(t, f))
  {
    if s == [] {
      assert |multiset(t)| == 0;
    } else {
      assert s[0] in multiset(t);
      var k :| 0 <= k < |t| && t[k] == s[0];
      TakenOut(s, 0);
      TakenOut(t, k);
      SameRest(multiset{s[0]}, multiset(s[..0] + s[1..]), multiset(t[..k] + t[k + 1..]));
      MappedPermutation(s[..0] + s[1..], t[..k] + t[k + 1..], f);
      MappedWithout(s, f, 0);
      MappedWithout(t, f, k);
    }
  }

  lemma SameRest<A>(one: multiset<A>, a: multiset<A>, b: multiset<A>)
    requires one + a == one + b
    ensures a == b
  {
    assert a == (one + a) - one && b == (one + b) - one;
  }
}

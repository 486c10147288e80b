/** Counting the elements of lists, and lists of numbers that are exactly 1 to n in some order. */
module Numbering {
  import opened Foundation

  ghost predicate Numbered(ns: seq<int>) {
    Distinct(ns) && forall k :: k in ns <==> 1 <= k <= |ns|
  }

  function UpTo(n: nat): (all: set<int>)
    ensures forall k :: k in all <==> 1 <= k <= n
  {
    if n == 0 then {} else UpTo(n - 1) + {n}
  }

  lemma {:induction false} UpToSize(n: nat)
    ensures |UpTo(n)| == n
  {
    if n > 0 {
      UpToSize(n - 1);
    }
  }

  function Elements<T(==)>(s: seq<T>): set<T> { set x | x in s }

  lemma {:induction false} ElementsSize<T>(s: seq<T>)
    ensures |Elements(s)| <= |s|
    ensures Distinct(s) ==> |Elements(s)| == |s|
  {
    if s != [] {
      var last, init := s[|s| - 1], s[..|s| - 1];
      ElementsSize(init);
      assert s == init + [last];
      assert Elements(s) == Elements(init) + {last};
      if Distinct(s) { assert last !in Elements(init); }
    }
  }

  /** A list without repeats is no longer than a set that holds its elements. */
  lemma DistinctFits<T>(s: seq<T>, all: set<T>)
    requires Distinct(s) && forall x :: x in s ==> x in all
    ensures |s| <= |all|
  {
    ElementsSize(s);
    SubsetSize(Elements(s), all);
  }

  lemma SubsetSize<T>(a: set<T>, b: set<T>)
    requires a <= b
    ensures |a| <= |b|
  {
    assert b == a + (b - a);
  }

  lemma SomeElement<T>(s: set<T>) returns (x: T)
    requires s != {}
    ensures x in s
  {
    x :| x in s;
  }

  function Image(s: set<int>, f: int -> int): set<int> { set x | x in s :: f(x) }

  /** An injective map keeps the size of a set. */
  lemma {:induction false} ImageSize(s: set<int>, f: int -> int)
    requires forall x, y :: x in s && y in s && f(x) == f(y) ==> x == y
    ensures |Image(s, f)| == |s|
  {
    if s != {} {
      var x := SomeElement(s);
      ImageSize(s - {x}, f);
      assert Image(s, f) == Image(s - {x}, f) + {f(x)};
      assert f(x) !in Image(s - {x}, f);
    }
  }

  lemma SameSizeSubset(a: set<int>, b: set<int>)
    requires a <= b && |a| >= |b|
    ensures a == b
  {
    assert b == a + (b - a);
    assert |b| == |a| + |b - a|;
  }

  /** Distinct numbers among which every number up to their maximum occurs are 1 to n. */
  lemma CompleteUpTo(ns: seq<int>, top: nat)
    requires Distinct(ns) && (forall n :: n in ns ==> 1 <= n <= top) && (forall k :: 1 <= k <= top ==> k in ns)
    ensures top == |ns| && Numbered(ns)
  {
    assert Elements(ns) == UpTo(top);
    UpToSize(top);
    ElementsSize(ns);
  }

  /** Distinct numbers that cover 1 to their count contain nothing else. */
  lemma CompleteByCount(ns: seq<int>)
    requires Distinct(ns) && forall k :: 1 <= k <= |ns| ==> k in ns
    ensures Numbered(ns)
  {
    UpToSize(|ns|);
    ElementsSize(ns);
    assert UpTo(|ns|) <= Elements(ns);
    SameSizeSubset(UpTo(|ns|), Elements(ns));
    forall k
      ensures k in ns <==> 1 <= k <= |ns|
    {
      assert k in ns <==> k in Elements(ns);
    }
  }

  lemma MulMonotone(x: nat, y: nat, k: nat)
    requires x <= y
    ensures x * k <= y * k
  {
  }

  lemma Quotient(q: nat, g: nat, chain: nat, i: nat, m: nat)
    requires q * chain + m == g * chain + i && i < chain && m < chain
    ensures q == g
  {
    if q < g { MulMonotone(q + 1, g, chain); }
    if g < q { MulMonotone(g + 1, q, chain); }
  }
}

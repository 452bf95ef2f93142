/**
 * Generic sequence helpers shared by the model: the `filter`, `map` and
 * `reduce (sum)` shapes that the dashboard's components use on arrays.
 */
module Seqs {

  /** `s.filter(f)`: the elements of `s` satisfying `f`, in their original order. */
  function Filter<T>(s: seq<T>, f: T -> bool): (r: seq<T>)
    ensures |r| <= |s|
    ensures forall i :: 0 <= i < |r| ==> f(r[i])
    decreases |s|
  {
    if s == [] then []
    else if f(s[0]) then [s[0]] + Filter(s[1..], f)
    else Filter(s[1..], f)
  }

  /** An element is kept by the filter exactly when it is in `s` and satisfies `f`. */
  lemma {:induction false} FilterMembers<T>(s: seq<T>, f: T -> bool)
    ensures forall i :: 0 <= i < |Filter(s, f)| ==> Filter(s, f)[i] in s
    ensures forall i :: 0 <= i < |s| && f(s[i]) ==> s[i] in Filter(s, f)
    decreases |s|
  {
    if s != [] {
      FilterMembers(s[1..], f);
      assert s == [s[0]] + s[1..];
    }
  }

  lemma FilterSingleton<T>(x: T, f: T -> bool)
    ensures Filter([x], f) == if f(x) then [x] else []
  {
    assert [x][1..] == [];
  }

  /** Summing a list with one more element at the end adds that element's value. */
  lemma SumSnoc<T>(s: seq<T>, x: T, f: T -> int)
    ensures Sum(s + [x], f) == Sum(s, f) + f(x)
  {
    assert (s + [x])[..|s + [x]| - 1] == s;
  }

  /** `s.map(f)`. */
  function Map<T, U>(s: seq<T>, f: T -> U): (r: seq<U>)
    ensures |r| == |s|
    ensures forall i :: 0 <= i < |s| ==> r[i] == f(s[i])
  {
    seq(|s|, i requires 0 <= i < |s| => f(s[i]))
  }

  /** The sum of `f` over `s`, folded from the left. */
  function Sum<T>(s: seq<T>, f: T -> int): int
    decreases |s|
  {
    if s == [] then 0 else Sum(s[..|s| - 1], f) + f(s[|s| - 1])
  }

  /** Number of elements satisfying `f`: `s.filter(f).length`. */
  function Count<T>(s: seq<T>, f: T -> bool): nat
  {
    |Filter(s, f)|
  }

  /** No element occurs twice. */
  predicate NoDuplicates<T(==)>(s: seq<T>)
  {
    forall i, j :: 0 <= i < j < |s| ==> s[i] != s[j]
  }

  /** `a` is an order-preserving selection of the elements of `b`. */
  predicate IsSubsequence<T(==)>(a: seq<T>, b: seq<T>)
    decreases |b|
  {
    if a == [] then true
    else if b == [] then false
    else if a[0] == b[0] then IsSubsequence(a[1..], b[1..])
    else IsSubsequence(a, b[1..])
  }

  /** Every sequence is an ordered selection of itself. */
  lemma {:induction false} SubsequenceRefl<T>(s: seq<T>)
    ensures IsSubsequence(s, s)
    decreases |s|
  {
    if s != [] {
      SubsequenceRefl(s[1..]);
    }
  }

  /** Two tests that agree everywhere filter alike. */
  lemma {:induction false} FilterSameTest<T>(s: seq<T>, f: T -> bool, g: T -> bool)
    requires forall x :: f(x) == g(x)
    ensures Filter(s, f) == Filter(s, g)
    decreases |s|
  {
    if s != [] {
      FilterSameTest(s[1..], f, g);
    }
  }

  lemma {:induction false} FilterAppend<T>(a: seq<T>, b: seq<T>, f: T -> bool)
    ensures Filter(a + b, f) == Filter(a, f) + Filter(b, f)
    decreases |a|
  {
    if a == [] {
      assert a + b == b;
    } else {
      assert (a + b)[1..] == a[1..] + b;
      FilterAppend(a[1..], b, f);
    }
  }

  lemma {:induction false} FilterAll<T>(s: seq<T>, f: T -> bool)
    requires forall i :: 0 <= i < |s| ==> f(s[i])
    ensures Filter(s, f) == s
    decreases |s|
  {
    if s != [] {
      FilterAll(s[1..], f);
    }
  }

  /** A filter that rejects every element gives the empty list. */
  lemma {:induction false} FilterNone<T>(s: seq<T>, f: T -> bool)
    requires forall i :: 0 <= i < |s| ==> !f(s[i])
    ensures Filter(s, f) == []
    decreases |s|
  {
    if s != [] {
      FilterNone(s[1..], f);
    }
  }

  /** A filter of a list without repeats has no repeats. */
  lemma {:induction false} FilterNoDuplicates<T>(s: seq<T>, f: T -> bool)
    requires NoDuplicates(s)
    ensures NoDuplicates(Filter(s, f))
    decreases |s|
  {
    if s != [] {
      FilterNoDuplicates(s[1..], f);
      if f(s[0]) {
        FilterMembers(s[1..], f);
        var r := Filter(s, f);
        assert r == [s[0]] + Filter(s[1..], f);
        forall i, j | 0 <= i < j < |r|
          ensures r[i] != r[j]
        {
          if i == 0 {
            assert r[j] == Filter(s[1..], f)[j - 1];
            assert r[j] in s[1..];
          }
        }
      }
    }
  }

  lemma {:induction false} FilterIsSubsequence<T>(s: seq<T>, f: T -> bool)
    ensures IsSubsequence(Filter(s, f), s)
    decreases |s|
  {
    if s != [] {
      FilterIsSubsequence(s[1..], f);
      assert s == [s[0]] + s[1..];
      if f(s[0]) {
        assert Filter(s, f) == [s[0]] + Filter(s[1..], f);
        assert Filter(s, f)[1..] == Filter(s[1..], f);
      } else {
        SubsequenceCons(Filter(s, f), s[0], s[1..]);
      }
    }
  }

  /** A subsequence of `b` stays one when an element is put in front of `b`. */
  lemma {:induction false} SubsequenceCons<T>(a: seq<T>, x: T, b: seq<T>)
    requires IsSubsequence(a, b)
    ensures IsSubsequence(a, [x] + b)
    decreases |b|, 1
  {
    assert ([x] + b)[1..] == b;
    if a != [] && a[0] == x {
      SubsequenceTail(a, b);
    }
  }

  /** Dropping the first element of a subsequence keeps it a subsequence. */
  lemma {:induction false} SubsequenceTail<T>(a: seq<T>, b: seq<T>)
    requires a != [] && IsSubsequence(a, b)
    ensures IsSubsequence(a[1..], b)
    decreases |b|, 0
  {
    assert b == [b[0]] + b[1..];
    if a[0] == b[0] {
      SubsequenceCons(a[1..], b[0], b[1..]);
    } else {
      SubsequenceTail(a, b[1..]);
      SubsequenceCons(a[1..], b[0], b[1..]);
    }
  }

  lemma {:induction false} SumAppend<T>(a: seq<T>, b: seq<T>, f: T -> int)
    ensures Sum(a + b, f) == Sum(a, f) + Sum(b, f)
    decreases |b|
  {
    if b == [] {
      assert a + b == a;
    } else {
      var b' := b[..|b| - 1];
      assert (a + b)[..|a + b| - 1] == a + b';
      SumAppend(a, b', f);
    }
  }

  lemma {:induction false} SumNonNegative<T>(s: seq<T>, f: T -> int)
    requires forall i :: 0 <= i < |s| ==> f(s[i]) >= 0
    ensures Sum(s, f) >= 0
    decreases |s|
  {
    if s != [] {
      SumNonNegative(s[..|s| - 1], f);
    }
  }

  /** Summing the elements that pass a filter never exceeds summing them all. */
  lemma {:induction false} SumFilterBound<T>(s: seq<T>, f: T -> int, g: T -> bool)
    requires forall i :: 0 <= i < |s| ==> f(s[i]) >= 0
    ensures Sum(Filter(s, g), f) <= Sum(s, f)
    decreases |s|
  {
    if s != [] {
      var init := s[..|s| - 1];
      var last := s[|s| - 1];
      assert s == init + [last];
      FilterAppend(init, [last], g);
      SumFilterBound(init, f, g);
      SumAppend(Filter(init, g), Filter([last], g), f);
    }
  }

  /** Summing over the elements a filter drops adds nothing when they all contribute 0. */
  lemma {:induction false} SumFilterZero<T>(s: seq<T>, f: T -> int, g: T -> bool)
    requires forall i :: 0 <= i < |s| ==> !g(s[i]) ==> f(s[i]) == 0
    ensures Sum(Filter(s, g), f) == Sum(s, f)
    decreases |s|
  {
    if s != [] {
      var init := s[..|s| - 1];
      var last := s[|s| - 1];
      assert s == init + [last];
      FilterAppend(init, [last], g);
      SumFilterZero(init, f, g);
      SumAppend(Filter(init, g), Filter([last], g), f);
    }
  }

  /** Summing over a filter that splits into two disjoint ones adds the two sums. */
  lemma {:induction false} SumFilterSplit<T>(s: seq<T>, f: T -> int, a: T -> bool, b: T -> bool, c: T -> bool)
    requires forall i :: 0 <= i < |s| ==> (c(s[i]) <==> a(s[i]) || b(s[i])) && !(a(s[i]) && b(s[i]))
    ensures Sum(Filter(s, a), f) + Sum(Filter(s, b), f) == Sum(Filter(s, c), f)
    decreases |s|
  {
    if s != [] {
      var init := s[..|s| - 1];
      var last := s[|s| - 1];
      assert s == init + [last];
      SumFilterSplit(init, f, a, b, c);
      FilterAppend(init, [last], a);
      FilterAppend(init, [last], b);
      FilterAppend(init, [last], c);
      FilterSingleton(last, a);
      FilterSingleton(last, b);
      FilterSingleton(last, c);
      SumAppend(Filter(init, a), Filter([last], a), f);
      SumAppend(Filter(init, b), Filter([last], b), f);
      SumAppend(Filter(init, c), Filter([last], c), f);
    }
  }

  /** The elements that have a key (`has`) equal to `d`. */
  function KeyAt<T>(has: T -> bool, key: T -> int, d: int): T -> bool
  {
    (x: T) => has(x) && key(x) == d
  }

  /** The elements that have a key (`has`) in [lo, hi). */
  function KeyIn<T>(has: T -> bool, key: T -> int, lo: int, hi: int): T -> bool
  {
    (x: T) => has(x) && lo <= key(x) < hi
  }

  /** Adding the elements keyed `hi` to those keyed in [lo, hi) gives those keyed in [lo, hi + 1), for any measure. */
  lemma KeyInSplit<T>(s: seq<T>, f: T -> int, has: T -> bool, key: T -> int, lo: int, hi: int)
    requires lo <= hi
    ensures Sum(Filter(s, KeyIn(has, key, lo, hi)), f) + Sum(Filter(s, KeyAt(has, key, hi)), f)
         == Sum(Filter(s, KeyIn(has, key, lo, hi + 1)), f)
  {
    SumFilterSplit(s, f, KeyIn(has, key, lo, hi), KeyAt(has, key, hi), KeyIn(has, key, lo, hi + 1));
  }

  /** No element is keyed in an empty range. */
  lemma KeyInEmpty<T>(s: seq<T>, has: T -> bool, key: T -> int, lo: int)
    ensures Filter(s, KeyIn(has, key, lo, lo)) == []
  {
    FilterNone(s, KeyIn(has, key, lo, lo));
  }

  /**
   * Points whose `i`-th entry measures, under `g`, what the elements keyed
   * `lo + i` measure under `f` add up, over their first `k` entries, to the
   * elements keyed in [lo, lo + k).
   */
  lemma {:induction false} KeyPrefixSums<P, T>(pts: seq<P>, g: P -> int, s: seq<T>, f: T -> int,
                                              has: T -> bool, key: T -> int, lo: int, k: nat)
    requires k <= |pts|
    requires forall i :: 0 <= i < k ==> g(pts[i]) == Sum(Filter(s, KeyAt(has, key, lo + i)), f)
    ensures Sum(pts[..k], g) == Sum(Filter(s, KeyIn(has, key, lo, lo + k)), f)
    decreases k
  {
    if k == 0 {
      KeyInEmpty(s, has, key, lo);
      assert pts[..0] == [];
    } else {
      KeyPrefixSums(pts, g, s, f, has, key, lo, k - 1);
      assert pts[..k][..k - 1] == pts[..k - 1];
      assert Sum(pts[..k], g) == Sum(pts[..k - 1], g) + g(pts[k - 1]);
      KeyInSplit(s, f, has, key, lo, lo + (k - 1));
    }
  }
}

/**
 * `Array.prototype.sort` with a comparator subtracting the first key from the second:
 * descending by an integer key and, as ECMAScript requires since 2019, stable
 * (elements with equal keys keep their original relative order). Modelled as
 * an insertion sort on sequences, since the dashboard always sorts a fresh copy.
 */
module StableSort {
  import opened Seqs

  /** Keys never increase from left to right. */
  predicate SortedDesc<T>(s: seq<T>, key: T -> int)
  {
    forall i, j :: 0 <= i < j < |s| ==> key(s[i]) >= key(s[j])
  }

  /** The test "has key k", as a value that `Filter` can take. */
  function KeyIs<T>(key: T -> int, k: int): T -> bool
  {
    x => key(x) == k
  }

  /** Inserts `x` before the first element whose key is not larger than its own. */
  function Insert<T(==)>(x: T, s: seq<T>, key: T -> int): (r: seq<T>)
    ensures |r| == |s| + 1
    ensures multiset(r) == multiset(s) + multiset{x}
    ensures r[0] == x || (s != [] && r[0] == s[0])
    decreases |s|
  {
    if s == [] || key(x) >= key(s[0]) then [x] + s
    else
      assert s == [s[0]] + s[1..];
      [s[0]] + Insert(x, s[1..], key)
  }

  /** Inserting into a sorted sequence keeps it sorted. */
  lemma {:induction false} InsertSorted<T>(x: T, s: seq<T>, key: T -> int)
    requires SortedDesc(s, key)
    ensures SortedDesc(Insert(x, s, key), key)
    decreases |s|
  {
    if s != [] && key(x) < key(s[0]) {
      InsertSorted(x, s[1..], key);
      var r := Insert(x, s[1..], key);
      assert Insert(x, s, key) == [s[0]] + r;
      assert key(s[0]) >= key(r[0]);
    }
  }

  /** The stable descending sort. */
  function Sort<T(==)>(s: seq<T>, key: T -> int): (r: seq<T>)
    ensures |r| == |s|
    ensures multiset(r) == multiset(s)
    ensures SortedDesc(r, key)
    decreases |s|
  {
    if s == [] then []
    else
      assert s == [s[0]] + s[1..];
      InsertSorted(s[0], Sort(s[1..], key), key);
      Insert(s[0], Sort(s[1..], key), key)
  }

  /** Helper: how `Filter` sees a sequence that starts with `x`. */
  lemma FilterCons<T>(x: T, t: seq<T>, f: T -> bool)
    ensures Filter([x] + t, f) == (if f(x) then [x] else []) + Filter(t, f)
  {
    assert ([x] + t)[1..] == t;
  }

  /** Inserting `x` adds it in front of the other elements with its key, and changes no other key class. */
  lemma {:induction false} InsertKeyClass<T>(x: T, t: seq<T>, key: T -> int, k: int)
    ensures Filter(Insert(x, t, key), KeyIs(key, k))
         == (if key(x) == k then [x] else []) + Filter(t, KeyIs(key, k))
    decreases |t|
  {
    var f := KeyIs(key, k);
    if t == [] || key(x) >= key(t[0]) {
      assert Insert(x, t, key) == [x] + t;
      FilterCons(x, t, f);
    } else {
      assert Insert(x, t, key) == [t[0]] + Insert(x, t[1..], key);
      InsertKeyClass(x, t[1..], key, k);
      FilterCons(t[0], Insert(x, t[1..], key), f);
      FilterCons(t[0], t[1..], f);
      assert t == [t[0]] + t[1..];
    }
  }

  /** Stability: the elements of each key keep their original relative order. */
  lemma {:induction false} SortIsStable<T>(s: seq<T>, key: T -> int, k: int)
    ensures Filter(Sort(s, key), KeyIs(key, k)) == Filter(s, KeyIs(key, k))
    decreases |s|
  {
    if s != [] {
      SortIsStable(s[1..], key, k);
      InsertKeyClass(s[0], Sort(s[1..], key), key, k);
      FilterCons(s[0], s[1..], KeyIs(key, k));
      assert s == [s[0]] + s[1..];
    }
  }

  /** Helper: the first element a filter keeps is the first element satisfying it. */
  lemma {:induction false} FilterFirst<T>(s: seq<T>, f: T -> bool, j: nat)
    requires j < |s| && f(s[j]) && forall i :: 0 <= i < j ==> !f(s[i])
    ensures Filter(s, f) != [] && Filter(s, f)[0] == s[j]
    decreases j
  {
    if j > 0 {
      FilterFirst(s[1..], f, j - 1);
    }
  }

  /** Helper: some element satisfies `f`, so a first one does. */
  lemma {:induction false} FirstWitness<T>(s: seq<T>, f: T -> bool, m: nat)
    requires m < |s| && f(s[m])
    ensures exists j :: 0 <= j < |s| && f(s[j]) && forall i :: 0 <= i < j ==> !f(s[i])
    decreases m
  {
    if exists i :: 0 <= i < m && f(s[i]) {
      var i :| 0 <= i < m && f(s[i]);
      FirstWitness(s, f, i);
    }
  }

  /**
   * The first element of the sorted sequence is the earliest element of the
   * input with its key: no element before it in the input has the same key.
   */
  lemma FirstOfSortIsEarliest<T>(s: seq<T>, key: T -> int)
    requires s != []
    ensures exists j ::
      0 <= j < |s| && s[j] == Sort(s, key)[0] &&
        forall i :: 0 <= i < j ==> key(s[i]) != key(s[j])
  {
    var sorted := Sort(s, key);
    var best := sorted[0];
    var f := KeyIs(key, key(best));
    SortIsStable(s, key, key(best));
    FilterFirst(sorted, f, 0);
    assert best in multiset(s);
    var m :| 0 <= m < |s| && s[m] == best;
    FirstWitness(s, f, m);
    var j :| 0 <= j < |s| && f(s[j]) && forall i :: 0 <= i < j ==> !f(s[i]);
    FilterFirst(s, f, j);
  }

  /** `s.slice(0, n)`. */
  function Take<T>(s: seq<T>, n: nat): (r: seq<T>)
    ensures |r| == if |s| < n then |s| else n
    ensures r == s[..|r|]
  {
    if |s| < n then s else s[..n]
  }
}

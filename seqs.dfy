/**
 * Sequence operations the store and the pages build on: `Array.prototype.filter`,
 * `Array.prototype.find` and the stable `Array.prototype.sort` with a numeric
 * comparator (`(a, b) => key(a) - key(b)`).
 */
module Seqs {
  import opened Wrappers

  /** The elements of `s` that satisfy `p`, in their original order. */
  function Filter<T>(s: seq<T>, p: T -> bool): (r: seq<T>)
    ensures |r| <= |s|
    ensures forall i :: 0 <= i < |r| ==> p(r[i])
  {
    if s == [] then []
    else if p(s[0]) then [s[0]] + Filter(s[1..], p)
    else Filter(s[1..], p)
  }

  /** An element is kept exactly when it occurs in the input and satisfies the predicate. */
  lemma {:induction false} FilterMember<T>(s: seq<T>, p: T -> bool, x: T)
    ensures x in Filter(s, p) <==> x in s && p(x)
  {
    if s != [] {
      FilterMember(s[1..], p, x);
      assert s == [s[0]] + s[1..];
    }
  }

  /** Filtering a concatenation filters each part: the result keeps the input's order. */
  lemma {:induction false} FilterAppend<T>(a: seq<T>, b: seq<T>, p: T -> bool)
    ensures Filter(a + b, p) == Filter(a, p) + Filter(b, p)
  {
    if a == [] {
      assert a + b == b;
    } else {
      assert (a + b)[1..] == a[1..] + b;
      FilterAppend(a[1..], b, p);
    }
  }

  /**
   * Replacing an element by one that the predicate treats alike replaces it in place
   * in the filtered sequence too: nothing is reordered, added or dropped.
   */
  lemma {:induction false} FilterUpdate<T>(s: seq<T>, i: nat, v: T, p: T -> bool)
    requires i < |s| && p(s[i]) == p(v)
    ensures p(v) ==> var j := |Filter(s[..i], p)|;
      j < |Filter(s, p)| && Filter(s, p)[j] == s[i] && Filter(s[i := v], p) == Filter(s, p)[j := v]
    ensures !p(v) ==> Filter(s[i := v], p) == Filter(s, p)
  {
    var pre, post := s[..i], s[i + 1..];
    assert s == pre + [s[i]] + post;
    assert s[i := v] == pre + [v] + post;
    FilterAppend(pre + [s[i]], post, p);
    FilterAppend(pre, [s[i]], p);
    FilterAppend(pre + [v], post, p);
    FilterAppend(pre, [v], p);
    assert Filter([v], p) == if p(v) then [v] else [];
    assert Filter([s[i]], p) == if p(v) then [s[i]] else [];
  }

  /** Filtering keeps everything when everything passes. */
  lemma {:induction false} FilterAll<T>(s: seq<T>, p: T -> bool)
    requires forall i :: 0 <= i < |s| ==> p(s[i])
    ensures Filter(s, p) == s
  {
    if s != [] {
      FilterAll(s[1..], p);
    }
  }

  /** The number of elements of `s` that satisfy `p` (`s.filter(p).length`). */
  function Count<T>(s: seq<T>, p: T -> bool): (n: nat)
    ensures n <= |s|
  {
    |Filter(s, p)|
  }

  /** The positions of `s` whose element satisfies `p`. */
  function IndicesWhere<T>(s: seq<T>, p: T -> bool): set<int> {
    set i | 0 <= i < |s| && p(s[i])
  }

  /** `Count` counts the positions whose element satisfies the predicate. */
  lemma {:induction false} CountIsIndices<T>(s: seq<T>, p: T -> bool)
    ensures Count(s, p) == |IndicesWhere(s, p)|
    decreases |s|
  {
    if s != [] {
      var init, x := s[..|s| - 1], s[|s| - 1];
      assert s == init + [x];
      CountIsIndices(init, p);
      FilterAppend(init, [x], p);
      var before := IndicesWhere(init, p);
      assert |init| !in before;
      if p(x) {
        assert IndicesWhere(s, p) == before + {|init|};
      } else {
        assert IndicesWhere(s, p) == before;
      }
    }
  }

  /** The first element of `s` that satisfies `p`, or none. */
  function Find<T>(s: seq<T>, p: T -> bool): (r: Option<T>)
    ensures r.None? <==> forall i :: 0 <= i < |s| ==> !p(s[i])
    ensures r.Some? ==> exists i :: 0 <= i < |s| && s[i] == r.value && p(s[i]) &&
                          forall j :: 0 <= j < i ==> !p(s[j])
  {
    if s == [] then None
    else if p(s[0]) then Some(s[0])
    else
      var r := Find(s[1..], p);
      assert forall i :: 1 <= i < |s| ==> s[i] == s[1..][i - 1];
      r
  }

  /** Whether `s` is in ascending order of `key`. */
  ghost predicate SortedBy<T>(s: seq<T>, key: T -> int) {
    forall i, j :: 0 <= i < j < |s| ==> key(s[i]) <= key(s[j])
  }

  /** The predicate "has key `k`", used to state stability. */
  function KeyIs<T>(key: T -> int, k: int): T -> bool {
    x => key(x) == k
  }

  /**
   * `r` is what a stable sort of `s` by `key` yields: ascending, a permutation of `s`,
   * and elements with equal keys in the order they had in `s`.
   */
  ghost predicate StableSortOf<T>(r: seq<T>, s: seq<T>, key: T -> int) {
    && SortedBy(r, key)
    && multiset(r) == multiset(s)
    && forall k :: Filter(r, KeyIs(key, k)) == Filter(s, KeyIs(key, k))
  }

  /** Inserts `x` before the first element whose key is not below its own. */
  function InsertBy<T>(x: T, t: seq<T>, key: T -> int): (r: seq<T>)
    ensures |r| == |t| + 1
  {
    if t == [] then [x]
    else if key(x) <= key(t[0]) then [x] + t
    else [t[0]] + InsertBy(x, t[1..], key)
  }

  /** Stable sort by `key`, ascending (insertion sort). */
  function SortBy<T>(s: seq<T>, key: T -> int): (r: seq<T>)
    ensures |r| == |s|
  {
    if s == [] then [] else InsertBy(s[0], SortBy(s[1..], key), key)
  }

  lemma {:induction false} InsertByPermutes<T>(x: T, t: seq<T>, key: T -> int)
    ensures multiset(InsertBy(x, t, key)) == multiset(t) + multiset{x}
  {
    if t != [] && key(x) > key(t[0]) {
      InsertByPermutes(x, t[1..], key);
      assert t == [t[0]] + t[1..];
    }
  }

  lemma {:induction false} InsertByLowerBound<T>(x: T, t: seq<T>, key: T -> int, b: int)
    requires key(x) >= b && forall i :: 0 <= i < |t| ==> key(t[i]) >= b
    ensures forall i :: 0 <= i < |InsertBy(x, t, key)| ==> key(InsertBy(x, t, key)[i]) >= b
  {
    if t != [] && key(x) > key(t[0]) {
      InsertByLowerBound(x, t[1..], key, b);
      assert InsertBy(x, t, key) == [t[0]] + InsertBy(x, t[1..], key);
    }
  }

  lemma {:induction false} InsertBySorted<T>(x: T, t: seq<T>, key: T -> int)
    requires SortedBy(t, key)
    ensures SortedBy(InsertBy(x, t, key), key)
  {
    if t != [] && key(x) > key(t[0]) {
      var r, r' := InsertBy(x, t, key), InsertBy(x, t[1..], key);
      InsertBySorted(x, t[1..], key);
      InsertByLowerBound(x, t[1..], key, key(t[0]));
      assert r == [t[0]] + r';
      forall i, j | 0 <= i < j < |r| ensures key(r[i]) <= key(r[j]) {
        assert r[j] == r'[j - 1];
        if i > 0 {
          assert r[i] == r'[i - 1];
        }
      }
    }
  }

  lemma {:induction false} InsertByKeepsKeyOrder<T>(x: T, t: seq<T>, key: T -> int, k: int)
    ensures Filter(InsertBy(x, t, key), KeyIs(key, k)) == Filter([x] + t, KeyIs(key, k))
  {
    var p := KeyIs(key, k);
    assert ([x] + t)[1..] == t;
    if t != [] && key(x) > key(t[0]) {
      var r' := InsertBy(x, t[1..], key);
      InsertByKeepsKeyOrder(x, t[1..], key, k);
      assert ([t[0]] + r')[1..] == r';
      assert ([x] + t[1..])[1..] == t[1..];
      if p(x) {
        assert !p(t[0]);
      }
    }
  }

  /** `SortBy` is a stable sort. */
  lemma {:induction false} SortByIsStableSort<T>(s: seq<T>, key: T -> int)
    ensures StableSortOf(SortBy(s, key), s, key)
  {
    if s != [] {
      var t := SortBy(s[1..], key);
      SortByIsStableSort(s[1..], key);
      InsertByPermutes(s[0], t, key);
      InsertBySorted(s[0], t, key);
      assert s == [s[0]] + s[1..];
      forall k ensures Filter(SortBy(s, key), KeyIs(key, k)) == Filter(s, KeyIs(key, k)) {
        InsertByKeepsKeyOrder(s[0], t, key, k);
        assert ([s[0]] + t)[1..] == t;
        assert ([s[0]] + s[1..])[1..] == s[1..];
      }
    }
  }
}

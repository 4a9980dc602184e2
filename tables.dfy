/**
 * A JavaScript `Map<number, V>` as the store uses it: entries kept in insertion
 * order, `get` by key, and `set`, which overwrites the value of a key already
 * present without moving it and appends a key not yet present.
 */
module Tables {
  import opened Wrappers
  import opened Seqs

  datatype Entry<V> = Entry(key: int, value: V)

  /** `Array.from(map.values())`: the values in insertion order. */
  function Values<V>(t: seq<Entry<V>>): (r: seq<V>)
    ensures |r| == |t| && forall i :: 0 <= i < |t| ==> r[i] == t[i].value
  {
    seq(|t|, i requires 0 <= i < |t| => t[i].value)
  }

  predicate HasKey<V>(t: seq<Entry<V>>, k: int) {
    exists i :: 0 <= i < |t| && t[i].key == k
  }

  /** Keys are unique, as in any `Map`. */
  ghost predicate DistinctKeys<V>(t: seq<Entry<V>>) {
    forall i, j :: 0 <= i < j < |t| ==> t[i].key != t[j].key
  }

  /**
   * The invariant of a table whose keys come from an auto-increment counter that
   * started at 1: keys are unique, and each lies in 1 .. `next` - 1.
   */
  ghost predicate KeyedBelow<V>(t: seq<Entry<V>>, next: int) {
    && 1 <= next
    && DistinctKeys(t)
    && forall i :: 0 <= i < |t| ==> 1 <= t[i].key < next
  }

  /** The position of key `k`. */
  function IndexOf<V>(t: seq<Entry<V>>, k: int): (i: nat)
    requires HasKey(t, k)
    ensures i < |t| && t[i].key == k && forall j :: 0 <= j < i ==> t[j].key != k
  {
    if t[0].key == k then 0
    else
      assert HasKey(t[1..], k) by {
        var i :| 0 <= i < |t| && t[i].key == k;
        assert t[1..][i - 1].key == k;
      }
      1 + IndexOf(t[1..], k)
  }

  /** The first position holding `k` is the one `IndexOf` finds. */
  lemma IndexOfIsFirst<V>(t: seq<Entry<V>>, k: int, i: nat)
    requires i < |t| && t[i].key == k && forall j :: 0 <= j < i ==> t[j].key != k
    ensures HasKey(t, k) && IndexOf(t, k) == i
  {
  }

  /** `map.get(k)`. */
  function Get<V>(t: seq<Entry<V>>, k: int): (r: Option<V>)
    ensures r.None? <==> !HasKey(t, k)
    ensures r.Some? ==> r.value == t[IndexOf(t, k)].value
  {
    if t == [] then None
    else if t[0].key == k then Some(t[0].value)
    else
      var r := Get(t[1..], k);
      assert HasKey(t, k) <==> HasKey(t[1..], k) by {
        if HasKey(t[1..], k) {
          var i :| 0 <= i < |t[1..]| && t[1..][i].key == k;
          assert t[i + 1].key == k;
        }
        if HasKey(t, k) {
          var i :| 0 <= i < |t| && t[i].key == k;
          assert t[1..][i - 1].key == k;
        }
      }
      r
  }

  /** `map.set(k, v)`. */
  function Set<V>(t: seq<Entry<V>>, k: int, v: V): (r: seq<Entry<V>>)
    ensures HasKey(t, k) ==> r == t[IndexOf(t, k) := Entry(k, v)]
    ensures !HasKey(t, k) ==> r == t + [Entry(k, v)]
  {
    if t == [] then [Entry(k, v)]
    else if t[0].key == k then [Entry(k, v)] + t[1..]
    else
      assert HasKey(t, k) <==> HasKey(t[1..], k) by {
        if HasKey(t[1..], k) {
          var i :| 0 <= i < |t[1..]| && t[1..][i].key == k;
          assert t[i + 1].key == k;
        }
        if HasKey(t, k) {
          var i :| 0 <= i < |t| && t[i].key == k;
          assert t[1..][i - 1].key == k;
        }
      }
      [t[0]] + Set(t[1..], k, v)
  }

  /** After `set(k, v)`, `get(k)` answers `v` and every other key answers as before. */
  lemma GetAfterSet<V>(t: seq<Entry<V>>, k: int, v: V, k': int)
    ensures Get(Set(t, k, v), k') == if k' == k then Some(v) else Get(t, k')
  {
    var r := Set(t, k, v);
    assert HasKey(r, k) by {
      if HasKey(t, k) { assert r[IndexOf(t, k)].key == k; } else { assert r[|t|].key == k; }
    }
    if k' == k {
      if HasKey(t, k) {
        IndexOfIsFirst(r, k, IndexOf(t, k));
      } else {
        IndexOfIsFirst(r, k, |t|);
      }
    } else {
      assert HasKey(r, k') <==> HasKey(t, k') by {
        if HasKey(r, k') {
          var i :| 0 <= i < |r| && r[i].key == k';
          assert t[i].key == k';
        }
        if HasKey(t, k') {
          var i :| 0 <= i < |t| && t[i].key == k';
          assert r[i].key == k';
        }
      }
      if HasKey(t, k') {
        IndexOfIsFirst(r, k', IndexOf(t, k'));
      }
    }
  }

  /** Setting a fresh key `next` appends it and keeps the table keyed below `next + 1`. */
  lemma SetFresh<V>(t: seq<Entry<V>>, next: int, v: V)
    requires KeyedBelow(t, next)
    ensures !HasKey(t, next)
    ensures Set(t, next, v) == t + [Entry(next, v)]
    ensures KeyedBelow(Set(t, next, v), next + 1)
  {
  }

  /**
   * After appending under a fresh key, getting that key answers the new value and
   * every other key answers as before: nothing was overwritten.
   */
  lemma GetFresh<V>(t: seq<Entry<V>>, next: int, v: V)
    requires KeyedBelow(t, next)
    ensures Get(t + [Entry(next, v)], next) == Some(v)
    ensures forall k :: k != next ==> Get(t + [Entry(next, v)], k) == Get(t, k)
  {
    SetFresh(t, next, v);
    forall k ensures Get(Set(t, next, v), k) == if k == next then Some(v) else Get(t, k) {
      GetAfterSet(t, next, v, k);
    }
  }

  /** Setting a key already present keeps the table's keys and their order. */
  lemma SetPresent<V>(t: seq<Entry<V>>, k: int, v: V, next: int)
    requires KeyedBelow(t, next) && HasKey(t, k)
    ensures KeyedBelow(Set(t, k, v), next)
    ensures |Set(t, k, v)| == |t| && forall i :: 0 <= i < |t| ==> Set(t, k, v)[i].key == t[i].key
  {
  }

  /** Setting the same value twice stores what setting it once does. */
  lemma SetIdempotent<V>(t: seq<Entry<V>>, k: int, v: V)
    ensures Set(Set(t, k, v), k, v) == Set(t, k, v)
  {
    var r := Set(t, k, v);
    assert HasKey(r, k) by {
      if HasKey(t, k) { assert r[IndexOf(t, k)].key == k; } else { assert r[|t|].key == k; }
    }
    if HasKey(t, k) {
      IndexOfIsFirst(r, k, IndexOf(t, k));
    } else {
      IndexOfIsFirst(r, k, |t|);
    }
  }

  /**
   * `update*`: when `k` is absent the answer is `None` and the table is untouched;
   * otherwise the merged record `f(old)` is stored under `k`, in place, and returned.
   */
  function Update<V>(t: seq<Entry<V>>, k: int, f: V -> V): (r: (Option<V>, seq<Entry<V>>))
    ensures r.0.None? <==> !HasKey(t, k)
    ensures r.0.None? ==> r.1 == t
    ensures r.0.Some? ==> r.0 == Some(f(Get(t, k).value)) && Get(r.1, k) == r.0
    ensures forall k' :: k' != k ==> Get(r.1, k') == Get(t, k')
  {
    match Get(t, k)
    case None => (None, t)
    case Some(v) =>
      assert forall k' :: Get(Set(t, k, f(v)), k') == if k' == k then Some(f(v)) else Get(t, k') by {
        forall k' ensures Get(Set(t, k, f(v)), k') == if k' == k then Some(f(v)) else Get(t, k') {
          GetAfterSet(t, k, f(v), k');
        }
      }
      (Some(f(v)), Set(t, k, f(v)))
  }

  /** An update whose merge is idempotent gives, applied twice, what it gives once. */
  lemma UpdateIdempotent<V>(t: seq<Entry<V>>, k: int, f: V -> V)
    requires Get(t, k).Some? ==> f(f(Get(t, k).value)) == f(Get(t, k).value)
    ensures Update(Update(t, k, f).1, k, f) == Update(t, k, f)
  {
    match Get(t, k)
    case None =>
    case Some(v) =>
      GetAfterSet(t, k, f(v), k);
      SetIdempotent(t, k, f(v));
  }

  /** Setting a fresh key appends: a filtered listing gains the new value at its end, if it qualifies. */
  lemma FilterValuesAfterAppend<V>(t: seq<Entry<V>>, k: int, v: V, p: V -> bool)
    requires !HasKey(t, k)
    ensures Filter(Values(Set(t, k, v)), p) ==
            Filter(Values(t), p) + (if p(v) then [v] else [])
  {
    assert Values(Set(t, k, v)) == Values(t) + [v];
    FilterAppend(Values(t), [v], p);
  }

  /**
   * Setting a key already present rewrites a filtered listing in place when the old and
   * the new value both qualify or both do not: nothing moves.
   */
  lemma FilterValuesAfterSet<V>(t: seq<Entry<V>>, k: int, v: V, p: V -> bool)
    requires HasKey(t, k) && p(t[IndexOf(t, k)].value) == p(v)
    ensures var j := |Filter(Values(t)[..IndexOf(t, k)], p)|;
      p(v) ==> j < |Filter(Values(t), p)| &&
               Filter(Values(Set(t, k, v)), p) == Filter(Values(t), p)[j := v]
    ensures !p(v) ==> Filter(Values(Set(t, k, v)), p) == Filter(Values(t), p)
  {
    var i := IndexOf(t, k);
    assert Values(Set(t, k, v)) == Values(t)[i := v];
    FilterUpdate(Values(t), i, v, p);
  }

  /**
   * An update that keeps the record's qualification for `p` leaves a filtered listing
   * in order: each position keeps its record or holds that record's merged version.
   */
  lemma UpdateKeepsListing<V>(t: seq<Entry<V>>, k: int, f: V -> V, p: V -> bool)
    requires Get(t, k).Some? ==> p(f(Get(t, k).value)) == p(Get(t, k).value)
    ensures var before, after := Filter(Values(t), p), Filter(Values(Update(t, k, f).1), p);
      |after| == |before| &&
      forall i :: 0 <= i < |after| ==> after[i] == before[i] || after[i] == f(before[i])
  {
    match Get(t, k)
    case None =>
    case Some(v) =>
      var idx := IndexOf(t, k);
      assert Values(Set(t, k, f(v))) == Values(t)[idx := f(v)];
      FilterUpdate(Values(t), idx, f(v), p);
  }
}

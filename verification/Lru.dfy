/** The recency list behind an LRU cache: most recently used first, every key at most once. */
module Lru {
  import opened Wrappers

  datatype Entry<K, V> = Entry(key: K, value: V)

  predicate HasKey<K(==), V>(es: seq<Entry<K, V>>, k: K) {
    exists i :: 0 <= i < |es| && es[i].key == k
  }

  ghost predicate DistinctKeys<K, V>(es: seq<Entry<K, V>>) {
    forall i, j :: 0 <= i < j < |es| ==> es[i].key != es[j].key
  }

  function Lookup<K(==), V>(es: seq<Entry<K, V>>, k: K): (r: Option<V>)
    ensures r.Some? <==> HasKey(es, k)
    ensures r.Some? ==> Entry(k, r.value) in es
  {
    if es == [] then None
    else if es[0].key == k then Some(es[0].value)
    else
      assert HasKey(es[1..], k) ==> HasKey(es, k);
      assert forall i :: 0 < i < |es| ==> es[i] == es[1..][i - 1];
      Lookup(es[1..], k)
  }

  /** The list without the entry of `k`. */
  function Without<K(==), V>(es: seq<Entry<K, V>>, k: K): (r: seq<Entry<K, V>>)
    ensures |r| <= |es| && !HasKey(r, k)
    ensures forall e :: e in r ==> e in es && e.key != k
    ensures forall e :: e in es && e.key != k ==> e in r
    ensures !HasKey(es, k) ==> r == es
  {
    if es == [] then []
    else
      assert HasKey(es[1..], k) ==> HasKey(es, k);
      assert es == [es[0]] + es[1..];
      var rest := Without(es[1..], k);
      if es[0].key == k then rest else [es[0]] + rest
  }

  lemma {:induction false} WithoutDistinct<K, V>(es: seq<Entry<K, V>>, k: K)
    requires DistinctKeys(es)
    ensures DistinctKeys(Without(es, k))
    ensures HasKey(es, k) ==> |Without(es, k)| == |es| - 1
  {
    if es != [] {
      WithoutDistinct(es[1..], k);
      var rest := Without(es[1..], k);
      forall j | 0 <= j < |rest| ensures rest[j].key != es[0].key {
        assert rest[j] in es[1..];
      }
      if es[0].key == k {
        assert !HasKey(es[1..], k);
      } else if HasKey(es, k) {
        assert HasKey(es[1..], k) by {
          var i :| 0 <= i < |es| && es[i].key == k;
          assert es[1..][i - 1] == es[i];
        }
      }
    }
  }

  /** `k` becomes the most recent entry. */
  function Insert<K(==), V>(es: seq<Entry<K, V>>, k: K, v: V): seq<Entry<K, V>> {
    [Entry(k, v)] + Without(es, k)
  }

  /** A hit makes the entry the most recent one; a miss changes nothing. */
  function Touch<K(==), V>(es: seq<Entry<K, V>>, k: K): seq<Entry<K, V>> {
    match Lookup(es, k)
    case Some(v) => Insert(es, k, v)
    case None => es
  }

  lemma InsertDistinct<K, V>(es: seq<Entry<K, V>>, k: K, v: V)
    requires DistinctKeys(es)
    ensures DistinctKeys(Insert(es, k, v))
  {
    WithoutDistinct(es, k);
    hide Without;
    FrontDistinct(Entry(k, v), Without(es, k));
  }

  lemma FrontDistinct<K, V>(e: Entry<K, V>, es: seq<Entry<K, V>>)
    requires DistinctKeys(es) && !HasKey(es, e.key)
    ensures DistinctKeys([e] + es)
  {
    assert forall j :: 0 <= j < |es| ==> es[j].key != e.key;
  }

  lemma {:induction false} WithoutConcat<K, V>(a: seq<Entry<K, V>>, b: seq<Entry<K, V>>, k: K)
    ensures Without(a + b, k) == Without(a, k) + Without(b, k)
  {
    hide Without, HasKey;
    if a == [] {
      NothingWithout(a, k);
      assert a + b == b;
    } else {
      assert (a + b)[1..] == a[1..] + b;
      WithoutHead(a, k);
      WithoutHead(a + b, k);
      WithoutConcat(a[1..], b, k);
      Regroup(if a[0].key == k then [] else [a[0]], Without(a[1..], k), Without(b, k));
    }
  }

  lemma NothingWithout<K, V>(es: seq<Entry<K, V>>, k: K)
    requires es == []
    ensures Without(es, k) == []
  {
  }

  lemma WithoutPrefix<K, V>(es: seq<Entry<K, V>>, n: nat, k: K)
    requires n <= |es|
    ensures Without(es[..n], k) <= Without(es, k)
  {
    hide Without, HasKey;
    assert es == es[..n] + es[n..];
    WithoutConcat(es[..n], es[n..], k);
  }

  lemma WithoutHead<K, V>(es: seq<Entry<K, V>>, k: K)
    requires es != []
    ensures Without(es, k) == (if es[0].key == k then [] else [es[0]]) + Without(es[1..], k)
  {
  }

  lemma InsertLookup<K, V>(es: seq<Entry<K, V>>, k: K, v: V, j: K)
    requires DistinctKeys(es)
    ensures Lookup(Insert(es, k, v), j) == if j == k then Some(v) else Lookup(es, j)
  {
    assert Insert(es, k, v)[1..] == Without(es, k);
    if j != k { WithoutLookup(es, k, j); }
  }

  lemma {:induction false} WithoutLookup<K, V>(es: seq<Entry<K, V>>, k: K, j: K)
    requires j != k
    ensures Lookup(Without(es, k), j) == Lookup(es, j)
  {
    if es != [] {
      WithoutLookup(es[1..], k, j);
      if es[0].key != k { assert Without(es, k)[1..] == Without(es[1..], k); }
    }
  }

  lemma {:induction false} PrefixLookup<K, V>(es: seq<Entry<K, V>>, n: nat, k: K)
    requires n <= |es| && HasKey(es[..n], k)
    ensures Lookup(es[..n], k) == Lookup(es, k)
  {
    assert n > 0;
    if es[0].key != k {
      assert es[..n][1..] == es[1..][..n - 1];
      var i :| 0 <= i < n && es[..n][i].key == k;
      assert es[1..][..n - 1][i - 1].key == k;
      PrefixLookup(es[1..], n - 1, k);
    }
  }

  // ---- the order of the entries ----

  /**
   The list is in the order in which its keys were last used, the latest first, and every key that is not in it was used
   before all that are. `use` gives the time of the last use of a key.
   */
  ghost predicate ByUse<K(!new), V>(es: seq<Entry<K, V>>, use: K -> int, now: int) {
    Descending(es, use) && (forall k :: use(k) < now) && (forall k :: !HasKey(es, k) ==> UsedAfter(es, use, k))
  }

  ghost predicate Descending<K, V>(es: seq<Entry<K, V>>, use: K -> int) {
    forall p, q :: 0 <= p < q < |es| ==> use(es[p].key) > use(es[q].key)
  }

  /** Every entry was used after `k`. */
  ghost predicate UsedAfter<K, V>(es: seq<Entry<K, V>>, use: K -> int, k: K) {
    forall e :: e in es ==> use(k) < use(e.key)
  }

  lemma FrontDescends<K, V>(e: Entry<K, V>, es: seq<Entry<K, V>>, use: K -> int)
    requires Descending(es, use) && forall f :: f in es ==> use(f.key) < use(e.key)
    ensures Descending([e] + es, use)
  {
    assert forall q :: 0 <= q < |es| ==> es[q] in es;
  }

  lemma {:induction false} WithoutDescends<K, V>(es: seq<Entry<K, V>>, k: K, use: K -> int)
    requires Descending(es, use)
    ensures Descending(Without(es, k), use)
  {
    if es != [] {
      TailDescends(es, use);
      WithoutDescends(es[1..], k, use);
      WithoutHead(es, k);
      hide Without, Descending;
      FrontDescends(es[0], Without(es[1..], k), use);
    }
  }

  lemma TailDescends<K, V>(es: seq<Entry<K, V>>, use: K -> int)
    requires Descending(es, use) && es != []
    ensures Descending(es[1..], use) && forall f :: f in es[1..] ==> use(f.key) < use(es[0].key)
  {
  }

  lemma SameUse<K, V>(es: seq<Entry<K, V>>, use: K -> int, next: K -> int)
    requires Descending(es, use) && forall e :: e in es ==> next(e.key) == use(e.key)
    ensures Descending(es, next)
  {
    assert forall q :: 0 <= q < |es| ==> es[q] in es;
  }

  /** A key that is used now goes to the front. */
  lemma UsedNow<K(!new), V>(es: seq<Entry<K, V>>, k: K, v: V, use: K -> int, next: K -> int, now: int)
    requires ByUse(es, use, now) && forall j :: next(j) == if j == k then now else use(j)
    ensures ByUse(Insert(es, k, v), next, now + 1)
  {
    hide Descending, HasKey;
    WithoutDescends(es, k, use);
    SameUse(Without(es, k), use, next);
    FrontDescends(Entry(k, v), Without(es, k), next);
    forall j | !HasKey(Insert(es, k, v), j) ensures UsedAfter(Insert(es, k, v), next, j) {
      if j == k || HasKey(es, j) { OthersInsert(es, k, v, j); }
      assert UsedAfter(es, use, j);
      assert forall e :: e in Insert(es, k, v) ==> e == Entry(k, v) || (e in es && e.key != k);
    }
  }

  lemma OthersStay<K, V>(es: seq<Entry<K, V>>, k: K, j: K)
    requires j != k && HasKey(es, j)
    ensures HasKey(Without(es, k), j)
  {
    var i :| 0 <= i < |es| && es[i].key == j;
    assert es[i] in Without(es, k);
  }

  lemma OthersInsert<K, V>(es: seq<Entry<K, V>>, k: K, v: V, j: K)
    requires j == k || HasKey(es, j)
    ensures HasKey(Insert(es, k, v), j)
  {
    var all, rest := Insert(es, k, v), Without(es, k);
    if j == k {
      assert all[0].key == j;
    } else {
      OthersStay(es, k, j);
      var i :| 0 <= i < |rest| && rest[i].key == j;
      assert all[i + 1].key == j;
    }
  }

  /** The keys cut off were used before those that stay. */
  lemma UsedAndCut<K(!new), V>(es: seq<Entry<K, V>>, n: nat, use: K -> int, now: int)
    requires ByUse(es, use, now) && n <= |es|
    ensures ByUse(es[..n], use, now)
  {
    var r := es[..n];
    forall j | !HasKey(r, j) ensures UsedAfter(r, use, j) {
      if i :| 0 <= i < |es| && es[i].key == j {
        assert i >= n by { NoKeyAt(r, j); }
      } else {
        assert UsedAfter(es, use, j);
      }
    }
  }

  /** A key that is taken out counts as never used. */
  lemma UsedNoMore<K(!new), V>(es: seq<Entry<K, V>>, k: K, use: K -> int, next: K -> int, now: nat)
    requires ByUse(es, use, now) && forall j :: next(j) == if j == k then -1 else use(j)
    requires forall e :: e in es ==> use(e.key) >= 0
    ensures ByUse(Without(es, k), next, now + 1)
  {
    hide Descending, HasKey;
    WithoutDescends(es, k, use);
    SameUse(Without(es, k), use, next);
    forall j | !HasKey(Without(es, k), j) ensures UsedAfter(Without(es, k), next, j) {
      if j != k {
        if HasKey(es, j) { OthersStay(es, k, j); }
        assert UsedAfter(es, use, j);
      }
    }
  }

  lemma NothingUsed<K(!new), V>(use: K -> int, now: int)
    requires forall k :: use(k) < now
    ensures ByUse<K, V>([], use, now)
  {
  }

  lemma LaterUse<K(!new), V>(es: seq<Entry<K, V>>, use: K -> int, next: K -> int, now: int)
    requires ByUse(es, use, now) && forall k :: next(k) == use(k)
    ensures ByUse(es, next, now + 1)
  {
    assert forall k :: UsedAfter(es, use, k) ==> UsedAfter(es, next, k);
  }

  lemma NoKeyAt<K, V>(es: seq<Entry<K, V>>, k: K)
    requires !HasKey(es, k)
    ensures forall i :: 0 <= i < |es| ==> es[i].key != k
  {
  }

  /** The list cut to its `cap` most recent entries. */
  function Evicted<K, V>(es: seq<Entry<K, V>>, cap: nat): seq<Entry<K, V>> {
    if |es| > cap then es[..cap] else es
  }

  lemma CutDistinct<K, V>(es: seq<Entry<K, V>>, cap: nat)
    requires DistinctKeys(es)
    ensures DistinctKeys(Evicted(es, cap)) && |Evicted(es, cap)| <= cap
  {
  }

  /** An insertion evicts an entry just when the key is new, the list full and the entry its last one. */
  lemma InsertEvicts<K, V>(es: seq<Entry<K, V>>, k: K, v: V, cap: nat, p: nat)
    requires DistinctKeys(es) && p < |es| <= cap
    ensures !HasKey(Evicted(Insert(es, k, v), cap), es[p].key) <==> !HasKey(es, k) && |es| == cap && p == cap - 1
  {
    var all := Insert(es, k, v);
    WithoutDistinct(es, k);
    InsertDistinct(es, k, v);
    if HasKey(es, k) {
      assert Evicted(all, cap) == all;
      if es[p].key == k { assert all[0].key == k; } else { assert es[p] in Without(es, k); assert es[p] in all; }
    } else {
      assert all[p + 1] == es[p];
      if p + 1 < cap { assert Evicted(all, cap)[p + 1] == es[p]; }
    }
  }
}

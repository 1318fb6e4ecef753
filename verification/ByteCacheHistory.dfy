/** The cache with a byte budget told from its history: which keys it holds, in which order, and with which values. */
module ByteCacheHistory {
  import opened Wrappers
  import opened Lru
  import opened ByteCacheModel

  lemma {:induction false} RunSnoc<K, V>(s: State<K, V>, size: V -> nat, ops: seq<Op<K, V>>, op: Op<K, V>)
    ensures Run(s, size, ops + [op]) == Apply(Run(s, size, ops), size, op)
    decreases |ops|
  {
    hide Apply;
    if ops == [] {
      assert ops + [op] == [op] && [op][1..] == [];
      assert Run(s, size, [op]) == Run(Apply(s, size, op), size, [op][1..]);
    } else {
      assert (ops + [op])[1..] == ops[1..] + [op];
      RunSnoc(Apply(s, size, ops[0]), size, ops[1..], op);
    }
  }

  /** The operation puts `k` or finds it. */
  predicate Uses<K(==), V>(s: State<K, V>, op: Op<K, V>, k: K) {
    match op
    case OpPut(j, _) => j == k
    case OpGet(j) => j == k && HasKey(s.entries, k)
    case OpClear => false
  }

  /** The number of the last operation since the last clear that put `k` or found it, or -1. */
  function LastUse<K(==), V>(s: State<K, V>, size: V -> nat, ops: seq<Op<K, V>>, k: K): int
    decreases |ops|
  {
    if ops == [] then -1 else
    var n := |ops| - 1;
    if ops[n].OpClear? then -1
    else if Uses(Run(s, size, ops[..n]), ops[n], k) then n
    else LastUse(s, size, ops[..n], k)
  }

  lemma UseNext<K(!new), V>(s: State<K, V>, size: V -> nat, op: Op<K, V>, use: K -> int, next: K -> int, now: nat)
    requires Sound(s, size) && ByUse(s.entries, use, now)
    requires forall k :: next(k) == if op.OpClear? then -1 else if Uses(s, op, k) then now else use(k)
    ensures ByUse(Apply(s, size, op).entries, next, now + 1)
  {
    hide ByUse, Sound, Put, Lookup, HasKey;
    match op
    case OpGet(k) =>
      if HasKey(s.entries, k) {
        UsedNow(s.entries, k, Lookup(s.entries, k).value, use, next, now);
      } else {
        LaterUse(s.entries, use, next, now);
      }
    case OpPut(k, v) =>
      UsedNow(s.entries, k, v, use, next, now);
      hide Insert;
      PutStaysMostRecent(s, size, s.entries, k, v);
      var all, kept := Insert(s.entries, k, v), Put(s, size, k, v).entries;
      UsedAndCut(all, |kept|, next, now + 1);
      assert all[..|kept|] == kept;
    case OpClear => NothingUsed<K, V>(next, now + 1);
  }

  /**
   After every run from an empty cache, whatever the sizes, the entries stand in the order of the last use of their
   keys, the latest first, and every key that is not stored was used before all that are, if it was used at all.
   */
  lemma {:induction false} LeastRecentLeaveFirst<K(!new), V>(s: State<K, V>, size: V -> nat, ops: seq<Op<K, V>>)
    requires Sound(s, size) && s.entries == []
    ensures var es := Run(s, size, ops).entries;
            && (forall p, q :: 0 <= p < q < |es| ==>
                  LastUse(s, size, ops, es[p].key) > LastUse(s, size, ops, es[q].key))
            && (forall k, p :: !HasKey(es, k) && 0 <= p < |es| ==>
                  LastUse(s, size, ops, k) < LastUse(s, size, ops, es[p].key))
  {
    InOrderOfUse(s, size, ops);
    var es := Run(s, size, ops).entries;
    forall k, p | !HasKey(es, k) && 0 <= p < |es|
      ensures LastUse(s, size, ops, k) < LastUse(s, size, ops, es[p].key)
    {
      assert UsedAfter(es, k => LastUse(s, size, ops, k), k) && es[p] in es;
    }
  }

  lemma {:induction false} InOrderOfUse<K(!new), V>(s: State<K, V>, size: V -> nat, ops: seq<Op<K, V>>)
    requires Sound(s, size) && s.entries == []
    ensures ByUse(Run(s, size, ops).entries, k => LastUse(s, size, ops, k), |ops|) && Sound(Run(s, size, ops), size)
    decreases |ops|
  {
    hide Sound, Apply, Uses;
    if ops != [] {
      var n := |ops| - 1;
      var before, s1 := ops[..n], Run(s, size, ops[..n]);
      InOrderOfUse(s, size, before);
      assert before + [ops[n]] == ops;
      RunSnoc(s, size, before, ops[n]);
      SoundNext(s1, size, ops[n]);
      UseNext(s1, size, ops[n], k => LastUse(s, size, before, k), k => LastUse(s, size, ops, k), n);
    }
  }

  lemma SoundNext<K, V>(s: State<K, V>, size: V -> nat, op: Op<K, V>)
    requires Sound(s, size)
    ensures Sound(Apply(s, size, op), size)
  {
    match op
    case OpGet(k) => TouchWeight(s.entries, size, k);
    case OpPut(k, v) => PutKeepsSound(s, size, k, v);
    case OpClear =>
  }

  // ---- the values ----

  /** Step `i` put the entry `e`, and nothing has been put under its key or cleared since. */
  ghost predicate LastPut<K, V>(ops: seq<Op<K, V>>, i: nat, e: Entry<K, V>) {
    i < |ops| && ops[i] == OpPut(e.key, e.value)
    && forall j :: i < j < |ops| ==> !ops[j].OpClear? && !(ops[j].OpPut? && ops[j].k == e.key)
  }

  lemma EntryKept<K, V>(s: State<K, V>, size: V -> nat, op: Op<K, V>, e: Entry<K, V>)
    requires Sound(s, size) && e in Apply(s, size, op).entries
    ensures !op.OpClear? && (op == OpPut(e.key, e.value) || (e in s.entries && !(op.OpPut? && op.k == e.key)))
  {
    match op
    case OpGet(k) => if HasKey(s.entries, k) { InsertedOrOld(s.entries, k, Lookup(s.entries, k).value, e); }
    case OpPut(k, v) =>
      PutStaysMostRecent(s, size, s.entries, k, v);
      var all, kept := Insert(s.entries, k, v), Put(s, size, k, v).entries;
      assert all[..|kept|] == kept;
      assert e in all;
      InsertedOrOld(s.entries, k, v, e);
    case OpClear =>
  }

  lemma InsertedOrOld<K, V>(es: seq<Entry<K, V>>, k: K, v: V, e: Entry<K, V>)
    requires e in Insert(es, k, v)
    ensures e == Entry(k, v) || (e in es && e.key != k)
  {
  }

  /** After every run from an empty cache an entry holds what was put last under its key. */
  lemma {:induction false} StoredIsLastPut<K, V>(s: State<K, V>, size: V -> nat, ops: seq<Op<K, V>>, e: Entry<K, V>)
    requires Sound(s, size) && s.entries == [] && e in Run(s, size, ops).entries
    ensures exists i :: LastPut(ops, i, e)
    decreases |ops|
  {
    hide Sound, Apply;
    var n := |ops| - 1;
    var before := ops[..n];
    assert before + [ops[n]] == ops;
    RunSnoc(s, size, before, ops[n]);
    SoundRun(s, size, before);
    EntryKept(Run(s, size, before), size, ops[n], e);
    if ops[n] == OpPut(e.key, e.value) {
      assert LastPut(ops, n, e);
    } else {
      StoredIsLastPut(s, size, before, e);
      var i :| LastPut(before, i, e);
      assert LastPut(ops, i, e);
    }
  }

  lemma {:induction false} SoundRun<K, V>(s: State<K, V>, size: V -> nat, ops: seq<Op<K, V>>)
    requires Sound(s, size)
    ensures Sound(Run(s, size, ops), size)
    decreases |ops|
  {
    hide Sound, Apply;
    if ops != [] {
      SoundNext(s, size, ops[0]);
      SoundRun(Apply(s, size, ops[0]), size, ops[1..]);
    }
  }

  // ---- nothing leaves without need ----

  /**
   A put keeps as many of the latest entries as it can: if one of them leaves, there are already as many as the cap
   allows, or the next one would pass the budget.
   */
  lemma PutKeepsMost<K, V>(s: State<K, V>, size: V -> nat, k: K, v: V)
    requires Sound(s, size) && Exact(s, size) && Weight(Candidates(s, k, v), size) <= USIZE_MAX
    ensures var es, all := Put(s, size, k, v).entries, Insert(s.entries, k, v);
            && es <= all
            && (|es| == |all| || |es| == s.cap || Weight(all[..|es| + 1], size) > s.budget)
  {
    hide Weight, Fit, MakeRoom, Written, Lru.Insert;
    var all, c := Insert(s.entries, k, v), Candidates(s, k, v);
    PutStaysMostRecent(s, size, s.entries, k, v);
    PutFits(s, size, k, v);
    var n := |Put(s, size, k, v).entries|;
    if n < |c| {
      FitIsLongest(c, size, s.budget, n + 1);
      assert c[..n + 1] == all[..n + 1];
    }
  }
}

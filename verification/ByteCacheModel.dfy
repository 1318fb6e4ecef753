/** The LRU cache with an entry cap and a byte budget (cc-widgets/src/byte_cache.rs). */
module ByteCacheModel {
  import opened Wrappers
  import opened Lru
  import opened MachineInts

  const USIZE_MAX: nat := TWO_64 - 1

  function SaturatingAdd(a: nat, b: nat): nat { if a + b > USIZE_MAX then USIZE_MAX else a + b }

  function SaturatingSub(a: nat, b: nat): nat { if a < b then 0 else a - b }

  datatype State<K, V> = State(entries: seq<Entry<K, V>>, bytes: nat, cap: nat, budget: nat)

  function Weight<K, V>(es: seq<Entry<K, V>>, size: V -> nat): nat {
    if es == [] then 0 else size(es[0].value) + Weight(es[1..], size)
  }

  /** Drops the least recent entries until what is left weighs at most `budget`. */
  function Fit<K, V>(es: seq<Entry<K, V>>, size: V -> nat, budget: nat): (r: seq<Entry<K, V>>)
    ensures r <= es && Weight(r, size) <= budget
    decreases |es|
  {
    if Weight(es, size) <= budget then es else Fit(es[..|es| - 1], size, budget)
  }

  lemma {:induction false} WeightSplit<K, V>(a: seq<Entry<K, V>>, b: seq<Entry<K, V>>, size: V -> nat)
    ensures Weight(a + b, size) == Weight(a, size) + Weight(b, size)
  {
    if a == [] {
      assert a + b == b;
    } else {
      assert (a + b)[1..] == a[1..] + b;
      WeightSplit(a[1..], b, size);
    }
  }

  lemma WeightOfPrefix<K, V>(es: seq<Entry<K, V>>, n: nat, size: V -> nat)
    requires n <= |es|
    ensures Weight(es[..n], size) <= Weight(es, size)
  {
    WeightSplit(es[..n], es[n..], size);
    assert es == es[..n] + es[n..];
  }

  /** `Fit` keeps the longest most recent part that fits: every longer part is too heavy. */
  lemma {:induction false} FitIsLongest<K, V>(es: seq<Entry<K, V>>, size: V -> nat, budget: nat, n: nat)
    requires |Fit(es, size, budget)| < n <= |es|
    ensures Weight(es[..n], size) > budget
    decreases |es|
  {
    if n == |es| {
      assert es[..n] == es;
    } else {
      FitIsLongest(es[..|es| - 1], size, budget, n);
      assert es[..|es| - 1][..n] == es[..n];
    }
  }

  lemma {:induction false} WeightWithout<K, V>(es: seq<Entry<K, V>>, k: K, size: V -> nat)
    requires DistinctKeys(es)
    ensures Weight(es, size) ==
              Weight(Without(es, k), size) + (if HasKey(es, k) then size(Lookup(es, k).value) else 0)
  {
    if es != [] {
      WeightWithout(es[1..], k, size);
      assert forall i :: 0 < i < |es| ==> es[i] == es[1..][i - 1];
      assert es[0].key != k ==> (HasKey(es, k) <==> HasKey(es[1..], k));
    }
  }

  // ---- operations ----

  function PopLru<K, V>(s: State<K, V>, size: V -> nat): State<K, V>
    requires s.entries != []
  {
    var n := |s.entries| - 1;
    s.(entries := s.entries[..n], bytes := SaturatingSub(s.bytes, size(s.entries[n].value)))
  }

  /** The eviction loop; an empty list sets the counter to zero. */
  function EvictToBudget<K, V>(s: State<K, V>, size: V -> nat): State<K, V>
    decreases |s.entries|
  {
    if s.bytes <= s.budget then s
    else if s.entries == [] then s.(bytes := 0)
    else EvictToBudget(PopLru(s, size), size)
  }

  function MakeRoom<K(==), V>(s: State<K, V>, size: V -> nat, k: K): State<K, V> {
    if |s.entries| == s.cap && !HasKey(s.entries, k) && s.entries != [] then PopLru(s, size) else s
  }

  /** The cache between the write of the new entry and the eviction. */
  function Written<K(==), V>(s: State<K, V>, size: V -> nat, k: K, v: V): State<K, V> {
    var replaced := if HasKey(s.entries, k) then size(Lookup(s.entries, k).value) else 0;
    s.(entries := Insert(s.entries, k, v), bytes := SaturatingAdd(SaturatingSub(s.bytes, replaced), size(v)))
  }

  function Put<K(==), V>(s: State<K, V>, size: V -> nat, k: K, v: V): State<K, V> {
    EvictToBudget(Written(MakeRoom(s, size, k), size, k, v), size)
  }

  // ---- what every operation keeps, whatever the sizes are ----

  ghost predicate Sound<K, V>(s: State<K, V>, size: V -> nat) {
    && s.cap >= 1 && s.budget <= USIZE_MAX
    && DistinctKeys(s.entries) && |s.entries| <= s.cap
    && s.bytes <= s.budget && s.bytes <= Weight(s.entries, size)
  }

  /** The counter is exact. */
  ghost predicate Exact<K, V>(s: State<K, V>, size: V -> nat) {
    s.bytes == Weight(s.entries, size)
  }

  lemma WeightPop<K, V>(s: State<K, V>, size: V -> nat)
    requires s.entries != []
    ensures Weight(s.entries, size) == Weight(PopLru(s, size).entries, size) + size(s.entries[|s.entries| - 1].value)
  {
    var n := |s.entries| - 1;
    WeightSplit(s.entries[..n], [s.entries[n]], size);
    assert s.entries == s.entries[..n] + [s.entries[n]];
  }

  /** The counter never exceeds what is stored, so the loop ends before the list is empty with bytes left. */
  lemma {:induction false} EvictKeeps<K, V>(s: State<K, V>, size: V -> nat)
    requires s.bytes <= Weight(s.entries, size)
    ensures var s' := EvictToBudget(s, size);
            && s'.entries <= s.entries && s'.bytes <= s.budget && s'.bytes <= Weight(s'.entries, size)
            && s'.cap == s.cap && s'.budget == s.budget
    ensures Exact(s, size) ==> var s' := EvictToBudget(s, size);
                               Exact(s', size) && s'.entries == Fit(s.entries, size, s.budget)
    decreases |s.entries|
  {
    if s.bytes > s.budget {
      WeightPop(s, size);
      EvictKeeps(PopLru(s, size), size);
    }
  }

  /** What is written before the eviction: the new entry in front, then the old ones that the cap leaves. */
  function Candidates<K(==), V>(s: State<K, V>, k: K, v: V): seq<Entry<K, V>> {
    var all := Insert(s.entries, k, v);
    if |all| > s.cap then all[..s.cap] else all
  }

  lemma RoomKeeps<K, V>(s: State<K, V>, size: V -> nat, k: K, v: V)
    requires Sound(s, size)
    ensures Sound(MakeRoom(s, size, k), size) && (Exact(s, size) ==> Exact(MakeRoom(s, size, k), size))
    ensures Insert(MakeRoom(s, size, k).entries, k, v) == Candidates(s, k, v)
    ensures |Candidates(s, k, v)| <= s.cap
  {
    WithoutDistinct(s.entries, k);
    if MakeRoom(s, size, k) != s {
      PopKeeps(s, size);
      NoKeyInPrefix(s.entries, |s.entries| - 1, k);
    }
  }

  lemma PopKeeps<K, V>(s: State<K, V>, size: V -> nat)
    requires Sound(s, size) && s.entries != []
    ensures Sound(PopLru(s, size), size) && (Exact(s, size) ==> Exact(PopLru(s, size), size))
  {
    hide Weight;
    WeightPop(s, size);
  }

  lemma NoKeyInPrefix<K, V>(es: seq<Entry<K, V>>, n: nat, k: K)
    requires !HasKey(es, k) && n <= |es|
    ensures !HasKey(es[..n], k)
  {
  }

  lemma WrittenKeeps<K, V>(s: State<K, V>, size: V -> nat, k: K, v: V)
    requires Sound(s, size)
    ensures var w := Written(s, size, k, v);
            && DistinctKeys(w.entries) && w.bytes <= Weight(w.entries, size)
            && (Exact(s, size) ==> w.bytes == SaturatingAdd(Weight(Without(s.entries, k), size), size(v)))
    ensures Weight(Insert(s.entries, k, v), size) == size(v) + Weight(Without(s.entries, k), size)
  {
    WeightWithout(s.entries, k, size);
    InsertDistinct(s.entries, k, v);
    assert Insert(s.entries, k, v)[1..] == Without(s.entries, k);
  }

  lemma PutKeepsSound<K, V>(s: State<K, V>, size: V -> nat, k: K, v: V)
    requires Sound(s, size)
    ensures Sound(Put(s, size, k, v), size)
  {
    RoomKeeps(s, size, k, v);
    WrittenKeeps(MakeRoom(s, size, k), size, k, v);
    EvictKeeps(Written(MakeRoom(s, size, k), size, k, v), size);
  }

  // ---- main results ----

  /** Without saturation a write keeps the counter exact and leaves the longest most recent part that fits. */
  lemma PutFits<K, V>(s: State<K, V>, size: V -> nat, k: K, v: V)
    requires Sound(s, size) && Exact(s, size)
    requires Weight(Candidates(s, k, v), size) <= USIZE_MAX
    ensures Put(s, size, k, v).entries == Fit(Candidates(s, k, v), size, s.budget)
    ensures Exact(Put(s, size, k, v), size)
  {
    RoomKeeps(s, size, k, v);
    WrittenKeeps(MakeRoom(s, size, k), size, k, v);
    EvictKeeps(Written(MakeRoom(s, size, k), size, k, v), size);
  }

  lemma {:induction false} HeavyHead<K, V>(es: seq<Entry<K, V>>, size: V -> nat, budget: nat)
    requires es != []
    ensures Fit(es, size, budget) == [] <==> size(es[0].value) > budget
    decreases |es|
  {
    if |es| > 1 {
      HeavyHead(es[..|es| - 1], size, budget);
    } else {
      assert es[1..] == [] && es[..0] == [];
    }
  }

  lemma {:induction false} EvictSaturated<K, V>(s: State<K, V>, size: V -> nat)
    requires s.entries != [] && s.bytes < Weight(s.entries, size)
    requires var rest := Weight(s.entries[1..], size); s.bytes >= rest
    ensures var s', rest := EvictToBudget(s, size), Weight(s.entries[1..], size);
            if s.bytes - rest <= s.budget then s'.entries != [] && s'.bytes < Weight(s'.entries, size)
            else s'.entries == [] && s'.bytes == 0
    decreases |s.entries|
  {
    if s.bytes > s.budget {
      WeightPop(s, size);
      var s1, n := PopLru(s, size), |s.entries| - 1;
      if n > 0 {
        WeightPop(s.(entries := s.entries[1..]), size);
        assert s.entries[1..][..n - 1] == s1.entries[1..];
        EvictSaturated(s1, size);
      }
    }
  }

  lemma WrittenCandidates<K, V>(s: State<K, V>, size: V -> nat, k: K, v: V)
    requires Sound(s, size) && Exact(s, size)
    ensures var c, w := Candidates(s, k, v), Written(MakeRoom(s, size, k), size, k, v);
            && w.entries == c && w.budget == s.budget && c != [] && c[0] == Entry(k, v)
            && Weight(c[1..], size) <= s.budget && Weight(c, size) == size(v) + Weight(c[1..], size)
            && w.bytes == SaturatingAdd(Weight(c[1..], size), size(v))
  {
    hide Weight;
    var s1 := MakeRoom(s, size, k);
    RoomKeeps(s, size, k, v);
    WrittenKeeps(s1, size, k, v);
    WeightWithout(s1.entries, k, size);
    assert Candidates(s, k, v)[1..] == Without(s1.entries, k);
  }

  /**
   A put leaves the cache empty exactly if the counter, which may have saturated, less the other entries is over the
   budget.
   */
  lemma EmptiedIff<K, V>(s: State<K, V>, size: V -> nat, k: K, v: V)
    requires Sound(s, size) && Exact(s, size) && size(v) <= USIZE_MAX
    ensures var rest := Weight(Candidates(s, k, v)[1..], size);
            Put(s, size, k, v).entries == [] <==> SaturatingAdd(rest, size(v)) - rest > s.budget
  {
    hide Weight, Candidates, Written, MakeRoom, Fit;
    var c := Candidates(s, k, v);
    WrittenCandidates(s, size, k, v);
    if Weight(c, size) <= USIZE_MAX {
      PutFits(s, size, k, v);
      HeavyHead(c, size, s.budget);
    } else {
      EvictSaturated(Written(MakeRoom(s, size, k), size, k, v), size);
    }
  }

  /** So a value over the budget is not kept if its size can be added to that of the other entries. */
  lemma OversizedEmpties<K, V>(s: State<K, V>, size: V -> nat, k: K, v: V)
    requires Sound(s, size) && Exact(s, size) && Weight(Candidates(s, k, v), size) <= USIZE_MAX
    requires size(v) > s.budget
    ensures Put(s, size, k, v).entries == [] && Put(s, size, k, v).bytes == 0
  {
    WrittenCandidates(s, size, k, v);
    EmptiedIff(s, size, k, v);
    PutFits(s, size, k, v);
  }

  function Itself(n: nat): nat { n }

  /** But a value of the greatest size is kept beside a budget of one less, with a counter that is two too small. */
  lemma OversizedKept()
    ensures var size := Itself;
            var s := State([Entry(0, 2)], 2, 2, USIZE_MAX - 1);
            var s' := Put(s, size, 1, USIZE_MAX);
            && Sound(s, size) && Exact(s, size) && s'.entries == [Entry(1, USIZE_MAX)] && s'.bytes == USIZE_MAX - 2
  {
    var size := Itself;
    var small := Entry(0, 2);
    var s := State([small], 2, 2, USIZE_MAX - 1);
    assert [small][1..] == [];
    assert Weight([small], size) == 2;
    var w := Written(s, size, 1, USIZE_MAX);
    assert MakeRoom(s, size, 1) == s && w.entries == [Entry(1, USIZE_MAX), small] && w.bytes == USIZE_MAX;
    var p := PopLru(w, size);
    assert p.entries == [Entry(1, USIZE_MAX)] && p.bytes == USIZE_MAX - 2;
    assert EvictToBudget(p, size) == p && EvictToBudget(w, size) == p;
  }

  lemma NothingWeighs<K, V>(es: seq<Entry<K, V>>, size: V -> nat)
    ensures es == [] ==> Weight(es, size) == 0
  {
  }

  /**
   When the sum saturates, the counter stays exact just if the new entry is too heavy even for the saturated counter,
   and then the cache is emptied, as it should be; otherwise the counter is too small from then on.
   */
  lemma SaturationBreaksCounter<K, V>(s: State<K, V>, size: V -> nat, k: K, v: V)
    requires Sound(s, size) && Exact(s, size) && size(v) <= USIZE_MAX
    requires Weight(Candidates(s, k, v), size) > USIZE_MAX
    ensures Exact(Put(s, size, k, v), size) <==> USIZE_MAX - Weight(Candidates(s, k, v)[1..], size) > s.budget
    ensures Exact(Put(s, size, k, v), size) ==>
              Put(s, size, k, v).entries == Fit(Candidates(s, k, v), size, s.budget) == []
  {
    hide Weight, Candidates, Written, MakeRoom, Fit;
    WrittenCandidates(s, size, k, v);
    EvictSaturated(Written(MakeRoom(s, size, k), size, k, v), size);
    NothingWeighs<K, V>([], size);
    HeavyHead(Candidates(s, k, v), size, s.budget);
  }

  // ---- runs ----

  datatype Op<K, V> = OpGet(k: K) | OpPut(k: K, v: V) | OpClear

  function Apply<K(==), V>(s: State<K, V>, size: V -> nat, op: Op<K, V>): State<K, V> {
    match op
    case OpGet(k) => s.(entries := Touch(s.entries, k))
    case OpPut(k, v) => Put(s, size, k, v)
    case OpClear => s.(entries := [], bytes := 0)
  }

  /** The recency list of the same run if nothing were ever evicted: `hit` says whether a read found its key. */
  function Remember<K(==), V>(all: seq<Entry<K, V>>, op: Op<K, V>, hit: bool): seq<Entry<K, V>> {
    match op
    case OpGet(k) => if hit then Touch(all, k) else all
    case OpPut(k, v) => Insert(all, k, v)
    case OpClear => []
  }

  lemma TouchWeight<K, V>(es: seq<Entry<K, V>>, size: V -> nat, k: K)
    requires DistinctKeys(es)
    ensures DistinctKeys(Touch(es, k)) && |Touch(es, k)| == |es| && Weight(Touch(es, k), size) == Weight(es, size)
  {
    if HasKey(es, k) {
      InsertDistinct(es, k, Lookup(es, k).value);
      WithoutDistinct(es, k);
      WeightWithout(es, k, size);
      assert Touch(es, k)[1..] == Without(es, k);
    }
  }

  lemma HitStaysMostRecent<K, V>(es: seq<Entry<K, V>>, all: seq<Entry<K, V>>, k: K)
    requires es <= all && HasKey(es, k)
    ensures Touch(es, k) <= Touch(all, k)
  {
    assert all[..|es|] == es;
    PrefixLookup(all, |es|, k);
    InsertPrefix(es, all, k, Lookup(es, k).value);
  }

  lemma PutStaysMostRecent<K, V>(s: State<K, V>, size: V -> nat, all: seq<Entry<K, V>>, k: K, v: V)
    requires Sound(s, size) && s.entries <= all
    ensures Put(s, size, k, v).entries <= Insert(all, k, v)
  {
    var s1 := MakeRoom(s, size, k);
    RoomKeeps(s, size, k, v);
    WrittenKeeps(s1, size, k, v);
    EvictKeeps(Written(s1, size, k, v), size);
    InsertPrefix(s1.entries, all, k, v);
  }

  lemma InsertPrefix<K, V>(es: seq<Entry<K, V>>, all: seq<Entry<K, V>>, k: K, v: V)
    requires es <= all
    ensures Insert(es, k, v) <= Insert(all, k, v)
  {
    assert all[..|es|] == es;
    WithoutPrefix(all, |es|, k);
  }

  /** The cache is at every moment a most recent part of that list: eviction only ever cuts its end. */
  lemma StaysMostRecent<K, V>(s: State<K, V>, size: V -> nat, all: seq<Entry<K, V>>, op: Op<K, V>)
    requires Sound(s, size) && DistinctKeys(all) && s.entries <= all
    ensures Sound(Apply(s, size, op), size)
    ensures var all' := Remember(all, op, op.OpGet? && HasKey(s.entries, op.k));
            DistinctKeys(all') && Apply(s, size, op).entries <= all'
  {
    match op
    case OpGet(k) =>
      assert DistinctKeys(s.entries);
      TouchWeight(s.entries, size, k);
      if HasKey(s.entries, k) {
        HitStaysMostRecent(s.entries, all, k);
        TouchWeight(all, size, k);
      }
    case OpPut(k, v) =>
      PutKeepsSound(s, size, k, v);
      PutStaysMostRecent(s, size, all, k, v);
      InsertDistinct(all, k, v);
    case OpClear =>
  }

  function Run<K(==), V>(s: State<K, V>, size: V -> nat, ops: seq<Op<K, V>>): State<K, V>
    decreases |ops|
  {
    if ops == [] then s else Run(Apply(s, size, ops[0]), size, ops[1..])
  }

  function RememberAll<K(==), V>(s: State<K, V>, size: V -> nat, all: seq<Entry<K, V>>, ops: seq<Op<K, V>>)
    : seq<Entry<K, V>>
    decreases |ops|
  {
    if ops == [] then all else
    var op := ops[0];
    RememberAll(Apply(s, size, op), size, Remember(all, op, op.OpGet? && HasKey(s.entries, op.k)), ops[1..])
  }

  /** After any run, whatever the sizes, the cache is a prefix of the recency list of all that was put and hit. */
  lemma {:induction false} RunStaysMostRecent<K, V>(s: State<K, V>, size: V -> nat, all: seq<Entry<K, V>>,
                                                    ops: seq<Op<K, V>>)
    requires Sound(s, size) && DistinctKeys(all) && s.entries <= all
    ensures Run(s, size, ops).entries <= RememberAll(s, size, all, ops) && Sound(Run(s, size, ops), size)
    decreases |ops|
  {
    hide Sound, Apply, Remember;
    if ops != [] {
      var op := ops[0];
      StaysMostRecent(s, size, all, op);
      var all' := Remember(all, op, op.OpGet? && HasKey(s.entries, op.k));
      RunStaysMostRecent(Apply(s, size, op), size, all', ops[1..]);
    }
  }

  /** If no single value can make the sum saturate, the counter is exact after every run, and within the budget. */
  lemma {:induction false} EveryRun<K, V>(s: State<K, V>, size: V -> nat, ops: seq<Op<K, V>>)
    requires Sound(s, size) && Exact(s, size)
    requires forall i :: 0 <= i < |ops| && ops[i].OpPut? ==> size(ops[i].v) + s.budget <= USIZE_MAX
    ensures var s' := Run(s, size, ops);
            && s'.bytes == Weight(s'.entries, size) <= s.budget && |s'.entries| <= s.cap && DistinctKeys(s'.entries)
    decreases |ops|
  {
    if ops != [] {
      var s1 := Apply(s, size, ops[0]);
      match ops[0] {
        case OpGet(k) => TouchWeight(s.entries, size, k);
        case OpPut(k, v) =>
          CandidatesWeight(s, size, k, v);
          PutFits(s, size, k, v);
          PutKeepsSound(s, size, k, v);
          PutBounds(s, size, k, v);
        case OpClear =>
      }
      EveryRun(s1, size, ops[1..]);
    }
  }

  lemma PutBounds<K, V>(s: State<K, V>, size: V -> nat, k: K, v: V)
    requires Sound(s, size)
    ensures Put(s, size, k, v).cap == s.cap && Put(s, size, k, v).budget == s.budget
  {
    RoomKeeps(s, size, k, v);
    WrittenKeeps(MakeRoom(s, size, k), size, k, v);
    EvictKeeps(Written(MakeRoom(s, size, k), size, k, v), size);
  }

  lemma CandidatesWeight<K, V>(s: State<K, V>, size: V -> nat, k: K, v: V)
    requires Sound(s, size) && Exact(s, size)
    ensures Weight(Candidates(s, k, v), size) <= size(v) + s.budget
  {
    var all := Insert(s.entries, k, v);
    WrittenKeeps(s, size, k, v);
    WeightWithout(s.entries, k, size);
    WeightOfPrefix(all, |Candidates(s, k, v)|, size);
    assert all[..|all|] == all;
  }
}

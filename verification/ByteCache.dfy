/** The cache object of cc-widgets/src/byte_cache.rs. */
module ByteCache {
  import opened Wrappers
  import opened Lru
  import opened ByteCacheModel
  import M = ByteCacheModel

  class ByteBudgetCache<K(==), V> {
    var lru: seq<Entry<K, V>>
    var bytes: nat
    const cap: nat
    const budget: nat
    const sizeOf: V -> nat

    ghost function Abs(): State<K, V>
      reads this
    {
      State(lru, bytes, cap, budget)
    }

    ghost predicate Valid()
      reads this
    {
      Sound(Abs(), sizeOf)
    }

    constructor (maxEntries: nat, budget: nat, sizeOf: V -> nat)
      requires budget <= USIZE_MAX
      ensures Valid() && Abs() == State([], 0, if maxEntries > 1 then maxEntries else 1, budget)
      ensures this.sizeOf == sizeOf
    {
      lru, bytes := [], 0;
      cap := if maxEntries > 1 then maxEntries else 1;
      this.budget, this.sizeOf := budget, sizeOf;
    }

    method Get(key: K) returns (r: Option<V>)
      requires Valid()
      modifies this
      ensures Valid() && Abs() == Apply(old(Abs()), sizeOf, OpGet(key))
      ensures r == Lookup(old(lru), key)
    {
      r := Lookup(lru, key);
      TouchWeight(lru, sizeOf, key);
      lru := Touch(lru, key);
    }

    method Put(key: K, value: V)
      requires Valid()
      modifies this
      ensures Valid() && Abs() == Apply(old(Abs()), sizeOf, OpPut(key, value))
    {
      hide Weight, DistinctKeys, M.EvictToBudget, Insert, Lookup, HasKey, Candidates;
      PutKeepsSound(Abs(), sizeOf, key, value);
      RoomKeeps(Abs(), sizeOf, key, value);
      WrittenKeeps(MakeRoom(Abs(), sizeOf, key), sizeOf, key, value);
      if |lru| == cap && !HasKey(lru, key) {
        if |lru| > 0 {
          PopLru();
        }
      }
      var incoming := sizeOf(value);
      if HasKey(lru, key) {
        bytes := SaturatingSub(bytes, sizeOf(Lookup(lru, key).value));
      }
      lru := Insert(lru, key, value);
      bytes := SaturatingAdd(bytes, incoming);
      EvictToBudget();
    }

    method PopLru()
      requires |lru| > 0
      modifies this
      ensures Abs() == M.PopLru(old(Abs()), sizeOf)
    {
      var evicted := lru[|lru| - 1];
      lru := lru[..|lru| - 1];
      bytes := SaturatingSub(bytes, sizeOf(evicted.value));
    }

    /** The loop never finds the list empty: the counter is at most what the list weighs. */
    method EvictToBudget()
      requires bytes <= Weight(lru, sizeOf)
      modifies this
      ensures Abs() == M.EvictToBudget(old(Abs()), sizeOf)
    {
      while bytes > budget
        invariant bytes <= Weight(lru, sizeOf)
        invariant M.EvictToBudget(Abs(), sizeOf) == M.EvictToBudget(old(Abs()), sizeOf)
        decreases |lru|
      {
        if |lru| > 0 {
          WeightPop(Abs(), sizeOf);
          PopLru();
        } else {
          assert false;
        }
      }
    }

    method Clear()
      requires Valid()
      modifies this
      ensures Valid() && Abs() == Apply(old(Abs()), sizeOf, OpClear)
    {
      lru, bytes := [], 0;
    }
  }
}

/** The table of live bytes per size class (cc-tui/src/alloc_config.rs). */
module AllocTable {
  import opened Wrappers
  import opened AllocKeys
  import opened Decimal
  import opened MachineInts
  import opened StableSort

  datatype Usage = Usage(size: nat, liveObjects: nat)
  {
    function Bytes(): nat { size * liveObjects }
  }

  /** More bytes first, and the smaller class first among equals. */
  predicate Before(a: Usage, b: Usage) { Larger(a.Bytes(), a.size, b.Bytes(), b.size) }

  predicate Larger(aBytes: nat, aSize: nat, bBytes: nat, bSize: nat) {
    aBytes > bBytes || (aBytes == bBytes && aSize < bSize)
  }

  lemma LargerIsTransitive(aBytes: nat, aSize: nat, bBytes: nat, bSize: nat, cBytes: nat, cSize: nat)
    requires !Larger(aBytes, aSize, bBytes, bSize) && !Larger(bBytes, bSize, cBytes, cSize)
    ensures !Larger(aBytes, aSize, cBytes, cSize)
  {
  }

  lemma BeforeOrder()
    ensures StrictWeak(Before)
  {
    forall a, b, c: Usage
      ensures !Before(a, a) && (Before(a, b) ==> !Before(b, a)) && (!Before(a, b) && !Before(b, c) ==> !Before(a, c))
    {
      if !Before(a, b) && !Before(b, c) {
        LargerIsTransitive(a.Bytes(), a.size, b.Bytes(), b.size, c.Bytes(), c.size);
      }
    }
  }

  /** What the allocator answers to a key. */
  type Reader = string -> Option<nat>

  /** Classes are numbered through: the bins first, then the large extents. */
  function CountOf(read: Reader, nbins: nat, arena: nat, c: nat): Option<nat> {
    read(if c < nbins then CountKey(arena, Bins, c) else CountKey(arena, Lextents, c - nbins))
  }

  function SizeOf(read: Reader, nbins: nat, c: nat): Option<nat> {
    read(if c < nbins then SizeKey(Bins, c) else SizeKey(Lextents, c - nbins))
  }

  /** Which counter is read for a class: the first classes are bins, the others large extents counted from zero. */
  lemma ClassesAreRead(read: Reader, nbins: nat, arena: nat, c: nat)
    ensures c < nbins ==> SizeOf(read, nbins, c) == read("arenas.bin." + Numeral(c) + ".size\0")
    ensures c >= nbins ==> SizeOf(read, nbins, c) == read("arenas.lextent." + Numeral(c - nbins) + ".size\0")
    ensures c < nbins ==>
              CountOf(read, nbins, arena, c)
              == read("stats.arenas." + Numeral(arena) + ".bins." + Numeral(c) + ".curregs\0")
    ensures c >= nbins ==>
              CountOf(read, nbins, arena, c)
              == read("stats.arenas." + Numeral(arena) + ".lextents." + Numeral(c - nbins) + ".curlextents\0")
  {
    hide SizeKey, CountKey, Numeral;
    KeyTexts(arena, c);
    if c >= nbins { KeyTexts(arena, c - nbins); }
  }

  /** The live objects of a class in the first `n` arenas; an arena that cannot be read has none. */
  function Live(read: Reader, nbins: nat, n: nat, c: nat): nat {
    if n == 0 then 0 else Live(read, nbins, n - 1, c) + CountOf(read, nbins, n - 1, c).GetOr(0)
  }

  /** The bytes of the first `n` classes in one arena. */
  function ArenaBytes(read: Reader, nbins: nat, sizes: seq<nat>, arena: nat, n: nat): nat
    requires n <= |sizes|
  {
    if n == 0 then 0 else
    ArenaBytes(read, nbins, sizes, arena, n - 1) + sizes[n - 1] * CountOf(read, nbins, arena, n - 1).GetOr(0)
  }

  /** The bytes of all classes in the first `n` arenas: what the allocator itself reports as allocated. */
  function AllBytes(read: Reader, nbins: nat, sizes: seq<nat>, n: nat): nat {
    if n == 0 then 0 else AllBytes(read, nbins, sizes, n - 1) + ArenaBytes(read, nbins, sizes, n - 1, |sizes|)
  }

  function SumBytes(us: seq<Usage>): nat {
    if us == [] then 0 else us[0].Bytes() + SumBytes(us[1..])
  }

  /** The classes that hold anything, in their order. */
  function Table(sizes: seq<nat>, live: seq<nat>): seq<Usage>
    requires |sizes| == |live|
  {
    if sizes == [] then [] else
    (if live[0] > 0 && sizes[0] > 0 then [Usage(sizes[0], live[0])] else []) + Table(sizes[1..], live[1..])
  }

  function Weighted(sizes: seq<nat>, live: seq<nat>): nat
    requires |sizes| == |live|
  {
    if sizes == [] then 0 else sizes[0] * live[0] + Weighted(sizes[1..], live[1..])
  }

  /** Leaving out the empty classes loses no byte. */
  lemma {:induction false} TableBytes(sizes: seq<nat>, live: seq<nat>)
    requires |sizes| == |live|
    ensures SumBytes(Table(sizes, live)) == Weighted(sizes, live)
    ensures forall u :: u in Table(sizes, live) ==> u.size > 0 && u.liveObjects > 0
  {
    if sizes != [] {
      TableBytes(sizes[1..], live[1..]);
      if live[0] > 0 && sizes[0] > 0 {
        assert Table(sizes, live)[1..] == Table(sizes[1..], live[1..]);
      } else {
        assert sizes[0] * live[0] == 0 && Table(sizes, live) == Table(sizes[1..], live[1..]);
      }
    }
  }

  /** The rows are the classes that hold anything, each with its own size and count, in their order. */
  lemma {:induction false} TableRows(sizes: seq<nat>, live: seq<nat>, n: nat)
    requires n <= |sizes| == |live|
    ensures Table(sizes[..n], live[..n]) ==
              if n == 0 then []
              else Table(sizes[..n - 1], live[..n - 1])
                   + if sizes[n - 1] == 0 || live[n - 1] == 0 then [] else [Usage(sizes[n - 1], live[n - 1])]
  {
    if n > 0 {
      assert sizes[..n] == sizes[..n - 1] + [sizes[n - 1]] && live[..n] == live[..n - 1] + [live[n - 1]];
      TableSnoc(sizes[..n - 1], live[..n - 1], sizes[n - 1], live[n - 1]);
    }
  }

  lemma {:induction false} TableSnoc(sizes: seq<nat>, live: seq<nat>, size: nat, l: nat)
    requires |sizes| == |live|
    ensures Table(sizes + [size], live + [l]) ==
              Table(sizes, live) + if size == 0 || l == 0 then [] else [Usage(size, l)]
  {
    if sizes == [] {
      assert [size][1..] == [] && [l][1..] == [];
    } else {
      assert (sizes + [size])[1..] == sizes[1..] + [size] && (live + [l])[1..] == live[1..] + [l];
      TableSnoc(sizes[1..], live[1..], size, l);
    }
  }

  lemma {:induction false} SumConcat(a: seq<Usage>, b: seq<Usage>)
    ensures SumBytes(a + b) == SumBytes(a) + SumBytes(b)
  {
    if a == [] {
      assert a + b == b;
    } else {
      assert (a + b)[1..] == a[1..] + b;
      SumConcat(a[1..], b);
    }
  }

  lemma SumWithout(us: seq<Usage>, k: nat)
    requires k < |us|
    ensures SumBytes(us) == us[k].Bytes() + SumBytes(us[..k] + us[k + 1..])
    ensures multiset(us[..k] + us[k + 1..]) == multiset(us) - multiset{us[k]}
  {
    hide SumBytes;
    SplitAt(us, k);
    SumAround(us[..k], us[k], us[k + 1..]);
    MultisetWithout(us, k);
  }

  lemma SplitAt<T>(s: seq<T>, k: nat)
    requires k < |s|
    ensures s == s[..k] + ([s[k]] + s[k + 1..])
  {
  }

  lemma MultisetWithout<T>(s: seq<T>, k: nat)
    requires k < |s|
    ensures multiset(s[..k] + s[k + 1..]) == multiset(s) - multiset{s[k]}
  {
    assert s == s[..k] + [s[k]] + s[k + 1..];
  }

  lemma SumAround(front: seq<Usage>, u: Usage, back: seq<Usage>)
    ensures SumBytes(front + ([u] + back)) == u.Bytes() + SumBytes(front + back)
  {
    SumConcat(front, [u] + back);
    SumConcat(front, back);
    assert ([u] + back)[1..] == back;
  }

  /** The sum does not depend on the order. */
  lemma {:induction false} SumOfMultiset(a: seq<Usage>, b: seq<Usage>)
    requires multiset(a) == multiset(b)
    ensures SumBytes(a) == SumBytes(b)
    decreases |a|
  {
    hide SumBytes;
    if a == [] {
      assert |multiset(b)| == 0;
    } else {
      assert a[0] in multiset(b);
      var k :| 0 <= k < |b| && b[k] == a[0];
      SumWithout(a, 0);
      SumWithout(b, k);
      SumOfMultiset(a[..0] + a[1..], b[..k] + b[k + 1..]);
    }
  }

  // ---- the sum over classes is the sum over arenas ----

  function LiveAll(read: Reader, nbins: nat, arenas: nat, n: nat): (r: seq<nat>)
    ensures |r| == n && forall c :: 0 <= c < n ==> r[c] == Live(read, nbins, arenas, c)
  {
    if n == 0 then [] else LiveAll(read, nbins, arenas, n - 1) + [Live(read, nbins, arenas, n - 1)]
  }

  lemma {:induction false} WeightedSnoc(sizes: seq<nat>, live: seq<nat>, s: nat, l: nat)
    requires |sizes| == |live|
    ensures Weighted(sizes + [s], live + [l]) == Weighted(sizes, live) + s * l
  {
    if sizes != [] {
      assert (sizes + [s])[1..] == sizes[1..] + [s] && (live + [l])[1..] == live[1..] + [l];
      WeightedSnoc(sizes[1..], live[1..], s, l);
    }
  }

  /** The weight of the first `n` classes grows by that of the next one. */
  lemma WeightedNextClass(read: Reader, nbins: nat, sizes: seq<nat>, arenas: nat, n: nat)
    requires 0 < n <= |sizes|
    ensures Weighted(sizes[..n], LiveAll(read, nbins, arenas, n)) ==
              Weighted(sizes[..n - 1], LiveAll(read, nbins, arenas, n - 1))
              + sizes[n - 1] * Live(read, nbins, arenas, n - 1)
  {
    hide Live, Weighted;
    assert sizes[..n] == sizes[..n - 1] + [sizes[n - 1]];
    WeightedSnoc(sizes[..n - 1], LiveAll(read, nbins, arenas, n - 1), sizes[n - 1], Live(read, nbins, arenas, n - 1));
  }

  lemma Distributes(s: nat, a: nat, b: nat)
    ensures s * (a + b) == s * a + s * b
  {
  }

  /** One more arena adds its own bytes. */
  lemma {:induction false} WeightedNextArena(read: Reader, nbins: nat, sizes: seq<nat>, arena: nat, n: nat)
    requires n <= |sizes|
    ensures Weighted(sizes[..n], LiveAll(read, nbins, arena + 1, n)) ==
              Weighted(sizes[..n], LiveAll(read, nbins, arena, n)) + ArenaBytes(read, nbins, sizes, arena, n)
  {
    hide CountOf;
    if n > 0 {
      WeightedNextArena(read, nbins, sizes, arena, n - 1);
      WeightedNextClass(read, nbins, sizes, arena, n);
      WeightedNextClass(read, nbins, sizes, arena + 1, n);
      Distributes(sizes[n - 1], Live(read, nbins, arena, n - 1), CountOf(read, nbins, arena, n - 1).GetOr(0));
    }
  }

  lemma {:induction false} NoArenaNoBytes(read: Reader, nbins: nat, sizes: seq<nat>, n: nat)
    requires n <= |sizes|
    ensures Weighted(sizes[..n], LiveAll(read, nbins, 0, n)) == 0
  {
    if n > 0 {
      NoArenaNoBytes(read, nbins, sizes, n - 1);
      WeightedNextClass(read, nbins, sizes, 0, n);
    }
  }

  /** Class by class or arena by arena, the bytes are the same. */
  lemma {:induction false} WeightedIsAllBytes(read: Reader, nbins: nat, sizes: seq<nat>, arenas: nat)
    ensures Weighted(sizes, LiveAll(read, nbins, arenas, |sizes|)) == AllBytes(read, nbins, sizes, arenas)
  {
    hide Weighted, Live, ArenaBytes;
    assert sizes[..|sizes|] == sizes;
    if arenas == 0 {
      NoArenaNoBytes(read, nbins, sizes, |sizes|);
    } else {
      WeightedIsAllBytes(read, nbins, sizes, arenas - 1);
      WeightedNextArena(read, nbins, sizes, arenas - 1, |sizes|);
    }
  }

  // ---- the query ----

  ghost predicate Readable(read: Reader, nbins: nat, arena: nat, total: nat) {
    exists c :: 0 <= c < total && CountOf(read, nbins, arena, c).Some?
  }

  ghost predicate AnyReadable(read: Reader, nbins: nat, arenas: nat, total: nat) {
    exists i :: 0 <= i < arenas && Readable(read, nbins, i, total)
  }

  ghost predicate AllSizes(read: Reader, nbins: nat, total: nat) {
    forall c :: 0 <= c < total ==> SizeOf(read, nbins, c).Some?
  }

  function Sizes(read: Reader, nbins: nat, total: nat): seq<nat> {
    seq(total, c requires 0 <= c => SizeOf(read, nbins, c).GetOr(0))
  }

  ghost predicate SizesAre(read: Reader, nbins: nat, sizes: seq<nat>) {
    forall c :: 0 <= c < |sizes| ==> SizeOf(read, nbins, c) == Some(sizes[c])
  }

  /** Reads the sizes of the classes of one kind behind those already known. */
  method ReadSizes(read: Reader, nbins: nat, w: Which, n: nat, known: seq<nat>) returns (sizes: Option<seq<nat>>)
    requires nbins < TWO_32 && n < TWO_32
    requires if w.Bins? then known == [] && n == nbins else |known| == nbins
    requires SizesAre(read, nbins, known)
    ensures sizes.Some? <==> AllSizes(read, nbins, |known| + n)
    ensures sizes.Some? ==> |sizes.value| == |known| + n && SizesAre(read, nbins, sizes.value)
  {
    hide SizesAre, AllSizes, SizeOf, SizeKey;
    var found := known;
    var kb := new KeyBuf();
    for c := 0 to n
      invariant kb.Valid() && fresh(kb) && fresh(kb.buf) && |found| == |known| + c && SizesAre(read, nbins, found)
    {
      var key := PushSizeKey(kb, w, c);
      var size := read(key);
      SizeRead(read, nbins, w, |known|, c);
      if size.None? {
        if AllSizes(read, nbins, |known| + n) { NoneMissing(read, nbins, |known| + n, |known| + c); }
        return None;
      }
      OneMoreSize(read, nbins, found, size.value);
      found := found + [size.value];
    }
    AllKnown(read, nbins, found);
    sizes := Some(found);
  }

  lemma SizeRead(read: Reader, nbins: nat, w: Which, first: nat, c: nat)
    requires if w.Bins? then first == 0 && c < nbins else first == nbins
    ensures read(SizeKey(w, c)) == SizeOf(read, nbins, first + c)
  {
  }

  lemma NoneMissing(read: Reader, nbins: nat, total: nat, c: nat)
    requires AllSizes(read, nbins, total) && c < total
    ensures SizeOf(read, nbins, c).Some?
  {
  }

  lemma OneMoreSize(read: Reader, nbins: nat, sizes: seq<nat>, size: nat)
    requires SizesAre(read, nbins, sizes) && SizeOf(read, nbins, |sizes|) == Some(size)
    ensures SizesAre(read, nbins, sizes + [size])
  {
    hide SizeOf;
  }

  lemma AllKnown(read: Reader, nbins: nat, sizes: seq<nat>)
    requires SizesAre(read, nbins, sizes)
    ensures AllSizes(read, nbins, |sizes|)
  {
  }

  /** The live objects after the first `j` classes of an arena were added. */
  ghost predicate PartlyRead(read: Reader, nbins: nat, arena: nat, live: seq<nat>, j: nat) {
    forall c :: 0 <= c < |live| ==> live[c] == Live(read, nbins, if c < j then arena + 1 else arena, c)
  }

  lemma NextClassRead(read: Reader, nbins: nat, arena: nat, live: seq<nat>, j: nat)
    requires j < |live| && PartlyRead(read, nbins, arena, live, j)
    ensures PartlyRead(read, nbins, arena, live[j := live[j] + CountOf(read, nbins, arena, j).GetOr(0)], j + 1)
  {
    hide CountOf;
    assert Live(read, nbins, arena + 1, j) == live[j] + CountOf(read, nbins, arena, j).GetOr(0);
  }

  lemma ReadableNext(read: Reader, nbins: nat, arena: nat, j: nat)
    ensures Readable(read, nbins, arena, j + 1) <==>
              Readable(read, nbins, arena, j) || CountOf(read, nbins, arena, j).Some?
    ensures !Readable(read, nbins, arena, 0)
  {
  }

  lemma NoneRead(read: Reader, nbins: nat, arena: nat, n: nat)
    ensures PartlyRead(read, nbins, arena, LiveAll(read, nbins, arena, n), 0)
    ensures !Readable(read, nbins, arena, 0)
  {
  }

  lemma AllRead(read: Reader, nbins: nat, arena: nat, live: seq<nat>)
    requires PartlyRead(read, nbins, arena, live, |live|)
    ensures live == LiveAll(read, nbins, arena + 1, |live|)
  {
  }

  lemma CountRead(read: Reader, nbins: nat, arena: nat, w: Which, first: nat, c: nat)
    requires if w.Bins? then first == 0 && c < nbins else first == nbins
    ensures read(CountKey(arena, w, c)) == CountOf(read, nbins, arena, first + c)
  {
  }

  /** Adds the counts of the classes of one kind in one arena to the live objects. */
  method ReadCounts(read: Reader, nbins: nat, w: Which, first: nat, n: nat, arena: nat, live: seq<nat>, before: bool,
                    kb: KeyBuf)
    returns (r: seq<nat>, arenaRead: bool)
    requires kb.Valid() && nbins < TWO_32 && n < TWO_32 && arena < TWO_32
    requires if w.Bins? then first == 0 && n == nbins else first == nbins
    requires first + n <= |live| && PartlyRead(read, nbins, arena, live, first)
    requires before <==> Readable(read, nbins, arena, first)
    modifies kb, kb.buf
    ensures kb.Valid() && |r| == |live| && PartlyRead(read, nbins, arena, r, first + n)
    ensures arenaRead <==> Readable(read, nbins, arena, first + n)
  {
    hide PartlyRead, Readable, CountOf, CountKey;
    r, arenaRead := live, before;
    for c := 0 to n
      invariant kb.Valid() && |r| == |live| && PartlyRead(read, nbins, arena, r, first + c)
      invariant arenaRead <==> Readable(read, nbins, arena, first + c)
    {
      var key := PushCountKey(kb, arena, w, c);
      var count := read(key);
      CountRead(read, nbins, arena, w, first, c);
      ReadableNext(read, nbins, arena, first + c);
      NextClassRead(read, nbins, arena, r, first + c);
      if count.Some? {
        r := r[first + c := r[first + c] + count.value];
        arenaRead := true;
      } else {
        assert r == r[first + c := r[first + c] + 0];
      }
    }
  }

  lemma NoArena(read: Reader, nbins: nat, total: nat)
    ensures seq(total, _ => 0) == LiveAll(read, nbins, 0, total)
    ensures !AnyReadable(read, nbins, 0, total)
  {
  }

  lemma AnyReadableNext(read: Reader, nbins: nat, arenas: nat, total: nat)
    ensures AnyReadable(read, nbins, arenas + 1, total) <==>
              AnyReadable(read, nbins, arenas, total) || Readable(read, nbins, arenas, total)
  {
    hide Readable;
  }

  /** Adds up the counts of all arenas, and says whether any arena could be read. */
  method ReadArenas(read: Reader, nbins: nat, nlextents: nat, narenas: nat) returns (live: seq<nat>, initialized: nat)
    requires nbins < TWO_32 && nlextents < TWO_32 && narenas < TWO_32
    ensures live == LiveAll(read, nbins, narenas, nbins + nlextents)
    ensures initialized > 0 <==> AnyReadable(read, nbins, narenas, nbins + nlextents)
  {
    hide PartlyRead, Readable, LiveAll, AnyReadable;
    var total := nbins + nlextents;
    live := seq(total, _ => 0);
    NoArena(read, nbins, total);
    var kb := new KeyBuf();
    initialized := 0;
    for i := 0 to narenas
      invariant kb.Valid() && fresh(kb) && fresh(kb.buf)
      invariant live == LiveAll(read, nbins, i, total)
      invariant initialized > 0 <==> AnyReadable(read, nbins, i, total)
    {
      var arenaRead := false;
      NoneRead(read, nbins, i, total);
      live, arenaRead := ReadCounts(read, nbins, Bins, 0, nbins, i, live, arenaRead, kb);
      live, arenaRead := ReadCounts(read, nbins, Lextents, nbins, nlextents, i, live, arenaRead, kb);
      AllRead(read, nbins, i, live);
      AnyReadableNext(read, nbins, i, total);
      if arenaRead {
        initialized := initialized + 1;
      }
    }
  }

  /** A sorted table of the non-empty classes that accounts for every byte. */
  ghost predicate TableOf(read: Reader, nbins: nat, narenas: nat, sizes: seq<nat>, t: seq<Usage>) {
    && Sorted(t, Before) && Descends(t)
    && (forall u :: u in t ==> u.size > 0 && u.liveObjects > 0)
    && multiset(t) == multiset(Table(sizes, LiveAll(read, nbins, narenas, |sizes|)))
    && SumBytes(t) == AllBytes(read, nbins, sizes, narenas)
  }

  /** More bytes stand first, and among as many bytes the smaller class. */
  ghost predicate Descends(t: seq<Usage>) {
    forall i, j :: 0 <= i < j < |t| ==>
      t[i].size * t[i].liveObjects > t[j].size * t[j].liveObjects
      || (t[i].size * t[i].liveObjects == t[j].size * t[j].liveObjects && t[i].size <= t[j].size)
  }

  lemma SortedDescends(t: seq<Usage>)
    requires Sorted(t, Before)
    ensures Descends(t)
  {
    forall i, j | 0 <= i < j < |t|
      ensures t[i].Bytes() > t[j].Bytes() || (t[i].Bytes() == t[j].Bytes() && t[i].size <= t[j].size)
    {
      assert !Before(t[j], t[i]);
    }
  }

  lemma SortedTable(read: Reader, nbins: nat, narenas: nat, sizes: seq<nat>)
    ensures TableOf(read, nbins, narenas, sizes, Sort(Table(sizes, LiveAll(read, nbins, narenas, |sizes|)), Before))
  {
    hide Table, SumBytes, AllBytes, Sort, LiveAll, Before, Sorted, Descends;
    var live := LiveAll(read, nbins, narenas, |sizes|);
    var table := Table(sizes, live);
    var sorted := Sort(table, Before);
    TableBytes(sizes, live);
    WeightedIsAllBytes(read, nbins, sizes, narenas);
    SumOfMultiset(sorted, table);
    BeforeOrder();
    SortSorts(table, Before);
    SortedDescends(sorted);
    forall u | u in sorted ensures u.size > 0 && u.liveObjects > 0 { InSort(table, Before, u); }
  }

  lemma NoSizes(read: Reader, nbins: nat)
    ensures SizesAre(read, nbins, [])
  {
  }

  lemma FewerSizes(read: Reader, nbins: nat, m: nat, n: nat)
    requires m <= n && AllSizes(read, nbins, n)
    ensures AllSizes(read, nbins, m)
  {
  }

  lemma SizesKnown(read: Reader, nbins: nat, sizes: seq<nat>)
    requires SizesAre(read, nbins, sizes)
    ensures sizes == Sizes(read, nbins, |sizes|)
  {
  }

  method QuerySizeClasses(read: Reader, nbins: Option<nat>, nlextents: Option<nat>, narenas: Option<nat>)
    returns (r: Option<seq<Usage>>)
    requires (nbins.Some? ==> nbins.value < TWO_32) && (nlextents.Some? ==> nlextents.value < TWO_32)
    requires narenas.Some? ==> narenas.value < TWO_32
    ensures r.Some? <==>
              && nbins.Some? && nlextents.Some? && narenas.Some? && nbins.value > 0 && narenas.value > 0
              && AllSizes(read, nbins.value, nbins.value + nlextents.value)
              && AnyReadable(read, nbins.value, narenas.value, nbins.value + nlextents.value)
    ensures r.Some? ==>
              var sizes := Sizes(read, nbins.value, nbins.value + nlextents.value);
              TableOf(read, nbins.value, narenas.value, sizes, r.value)
  {
    hide AllSizes, AnyReadable, SizesAre, Sizes, Table, TableOf, Sort, LiveAll;
    if nbins.None? || nlextents.None? || narenas.None? || nbins.value == 0 || narenas.value == 0 {
      return None;
    }
    NoSizes(read, nbins.value);
    var binSizes := ReadSizes(read, nbins.value, Bins, nbins.value, []);
    if binSizes.None? {
      if AllSizes(read, nbins.value, nbins.value + nlextents.value) {
        FewerSizes(read, nbins.value, nbins.value, nbins.value + nlextents.value);
      }
      return None;
    }
    var allSizes := ReadSizes(read, nbins.value, Lextents, nlextents.value, binSizes.value);
    if allSizes.None? {
      return None;
    }
    var live, initialized := ReadArenas(read, nbins.value, nlextents.value, narenas.value);
    if initialized == 0 {
      return None;
    }
    var sizes := allSizes.value;
    r := Some(Sort(Table(sizes, live), Before));
    SizesKnown(read, nbins.value, sizes);
    SortedTable(read, nbins.value, narenas.value, sizes);
  }
}

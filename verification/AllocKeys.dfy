/** The keys of the allocator's counters (cc-tui/src/alloc_config.rs). */
module AllocKeys {
  import opened Wrappers
  import opened Decimal
  import opened MachineInts

  const KEY_CAPACITY: nat := 64
  const NUL: char := 0 as char

  lemma NumeralLengths(n: nat)
    ensures n < TWO_32 ==> |Numeral(n)| <= 10
    ensures n < TWO_64 ==> |Numeral(n)| <= 20
  {
    assert Power10(10) == 10_000_000_000 by { assert Power10(5) == 100_000; PowerAdds(5, 5); }
    PowerAdds(10, 10);
    if n < TWO_32 { NumeralLength(n, 10); }
    if n < TWO_64 { NumeralLength(n, 20); }
  }

  lemma {:induction false} PowerAdds(a: nat, b: nat)
    ensures Power10(a + b) == Power10(a) * Power10(b)
  {
    if a > 0 { PowerAdds(a - 1, b); }
  }

  /** A key is built in a fixed buffer; every push keeps one place free for the NUL at the end. */
  class KeyBuf {
    const buf: array<char>
    var len: nat

    ghost predicate Valid()
      reads this
    {
      buf.Length == KEY_CAPACITY && len < KEY_CAPACITY
    }

    ghost function Text(): string
      requires Valid()
      reads this, buf
    {
      buf[..len]
    }

    constructor ()
      ensures Valid() && Text() == "" && fresh(buf)
    {
      buf := new char[KEY_CAPACITY](_ => NUL);
      len := 0;
    }

    method Reset()
      requires Valid()
      modifies this
      ensures Valid() && Text() == ""
    {
      len := 0;
    }

    method PushStr(s: string)
      requires Valid() && len + |s| < KEY_CAPACITY
      modifies this, buf
      ensures Valid() && Text() == old(Text()) + s
    {
      forall i | 0 <= i < |s| {
        buf[len + i] := s[i];
      }
      len := len + |s|;
      assert buf[..len] == old(buf[..len]) + s;
    }

    static lemma OneDigit(n: nat)
      ensures |Numeral(n)| == 1 <==> n < 10
    {
    }

    static lemma LastDigit(n: nat)
      ensures Numeral(n)[|Numeral(n)| - 1] == DigitChar(n % 10)
    {
    }

    /** If a numeral begins with that of `idx`, it begins with that of a tenth of it, too. */
    static lemma NextDigit(numeral: string, idx: nat, n: nat)
      requires n < |numeral| && numeral[..n + 1] == Numeral(idx) && idx >= 10
      ensures n > 0 && numeral[..n] == Numeral(idx / 10) && numeral[n - 1] == DigitChar(idx / 10 % 10)
    {
      var all := Numeral(idx);
      assert all == Numeral(idx / 10) + [DigitChar(idx % 10)] && |all| == n + 1;
      hide Numeral;
      LastDigit(idx / 10);
      assert numeral[..n] == numeral[..n + 1][..n] == Numeral(idx / 10);
    }

    /** The digits of the index, last one first; twenty places are enough for 64 bits. */
    static method Digits(index: nat) returns (digits: array<char>, n: nat)
      requires index < TWO_64
      ensures fresh(digits) && digits.Length == 20 && n == |Numeral(index)| <= 20
      ensures forall i :: 0 <= i < n ==> digits[i] == Numeral(index)[n - 1 - i]
    {
      NumeralLengths(index);
      LastDigit(index);
      hide Numeral;
      digits := new char[20](_ => '0');
      var idx := index;
      ghost var m := |Numeral(index)|;
      digits[0] := DigitChar(idx % 10);
      n := 1;
      while idx / 10 != 0
        invariant 1 <= n <= m && Numeral(index)[..m - n + 1] == Numeral(idx)
        invariant forall i :: 0 <= i < n ==> digits[i] == Numeral(index)[m - 1 - i]
        decreases idx
      {
        NextDigit(Numeral(index), idx, m - n);
        idx := idx / 10;
        digits[n] := DigitChar(idx % 10);
        n := n + 1;
      }
      OneDigit(idx);
    }

    /** Appends the shortest decimal numeral of the index. */
    method PushIndex(index: nat)
      requires Valid() && index < TWO_64 && len + |Numeral(index)| < KEY_CAPACITY
      modifies this, buf
      ensures Valid() && Text() == old(Text()) + Numeral(index)
    {
      var digits, n := Digits(index);
      ghost var start, numeral := len, Numeral(index);
      var i := n;
      while i > 0
        invariant 0 <= i <= n == |numeral| && len == start + n - i
        invariant buf[..start] == old(buf[..len])
        invariant forall k :: 0 <= k < n - i ==> buf[start + k] == numeral[k]
        modifies this, buf
      {
        i := i - 1;
        buf[len] := digits[i];
        len := len + 1;
      }
      assert buf[..len] == buf[..start] + numeral;
    }

    /** The key with its NUL. */
    method Key() returns (key: string)
      requires Valid()
      modifies buf
      ensures Valid() && key == Text() + [NUL] && Text() == old(Text())
    {
      buf[len] := NUL;
      key := buf[..len + 1];
    }
  }

  // ---- the keys ----

  datatype Which = Bins | Lextents

  function Start(w: Which): string { if w.Bins? then "arenas.bin." else "arenas.lextent." }

  function SizeKey(w: Which, c: nat): string { Start(w) + Numeral(c) + ".size" + [NUL] }

  function Middle(w: Which): string { if w.Bins? then ".bins." else ".lextents." }

  function Ending(w: Which): string { if w.Bins? then ".curregs" else ".curlextents" }

  function CountKey(arena: nat, w: Which, c: nat): string {
    "stats.arenas." + Numeral(arena) + Middle(w) + Numeral(c) + Ending(w) + [NUL]
  }

  method PushSizeKey(kb: KeyBuf, w: Which, c: nat) returns (key: string)
    requires kb.Valid() && c < TWO_32
    modifies kb, kb.buf
    ensures kb.Valid() && key == SizeKey(w, c)
  {
    NumeralLengths(c);
    hide Numeral, Power10;
    kb.Reset();
    kb.PushStr(Start(w));
    assert kb.Text() == Start(w);
    kb.PushIndex(c);
    kb.PushStr(".size");
    key := kb.Key();
  }

  /** With 32-bit indices no push runs over the end of the buffer. */
  method PushCountKey(kb: KeyBuf, arena: nat, w: Which, c: nat) returns (key: string)
    requires kb.Valid() && arena < TWO_32 && c < TWO_32
    modifies kb, kb.buf
    ensures kb.Valid() && key == CountKey(arena, w, c)
  {
    NumeralLengths(arena);
    NumeralLengths(c);
    hide Numeral, Power10;
    kb.Reset();
    kb.PushStr("stats.arenas.");
    assert kb.Text() == "stats.arenas.";
    kb.PushIndex(arena);
    kb.PushStr(Middle(w));
    kb.PushIndex(c);
    kb.PushStr(Ending(w));
    key := kb.Key();
  }

  /** The names under which jemalloc reports its counters. */
  lemma KeyTexts(arena: nat, c: nat)
    ensures SizeKey(Bins, c) == "arenas.bin." + Numeral(c) + ".size\0"
    ensures SizeKey(Lextents, c) == "arenas.lextent." + Numeral(c) + ".size\0"
    ensures CountKey(arena, Bins, c) == "stats.arenas." + Numeral(arena) + ".bins." + Numeral(c) + ".curregs\0"
    ensures CountKey(arena, Lextents, c) ==
              "stats.arenas." + Numeral(arena) + ".lextents." + Numeral(c) + ".curlextents\0"
  {
    hide Numeral;
    assert ".size\0" == ".size" + [NUL] && ".curregs\0" == ".curregs" + [NUL];
    assert ".curlextents\0" == ".curlextents" + [NUL];
    Regroup("arenas.bin." + Numeral(c), ".size", [NUL]);
    Regroup("arenas.lextent." + Numeral(c), ".size", [NUL]);
    Regroup("stats.arenas." + Numeral(arena) + ".bins." + Numeral(c), ".curregs", [NUL]);
    Regroup("stats.arenas." + Numeral(arena) + ".lextents." + Numeral(c), ".curlextents", [NUL]);
  }

  lemma SamePrefix(x: string, a: string, b: string)
    requires x + a == x + b
    ensures a == b
  {
    assert a == (x + a)[|x|..] && b == (x + b)[|x|..];
  }

  lemma SameMiddle(w: Which, x: string, w': Which, x': string)
    requires Middle(w) + x == Middle(w') + x'
    ensures w == w' && x == x'
  {
    assert (Middle(w) + x)[1] == Middle(w)[1] && (Middle(w') + x')[1] == Middle(w')[1];
    SamePrefix(Middle(w), x, x');
  }

  lemma Regrouped(a: string, b: string, c: string, d: string, e: string, f: string)
    ensures a + b + c + d + e + f == a + (b + (c + (d + (e + f))))
  {
  }

  /** Different arenas or classes have different keys. */
  lemma CountKeysDiffer(a: nat, w: Which, c: nat, a': nat, w': Which, c': nat)
    requires CountKey(a, w, c) == CountKey(a', w', c')
    ensures a == a' && w == w' && c == c'
  {
    hide Numeral;
    var last, last' := Numeral(c) + (Ending(w) + [NUL]), Numeral(c') + (Ending(w') + [NUL]);
    Regrouped("stats.arenas.", Numeral(a), Middle(w), Numeral(c), Ending(w), [NUL]);
    Regrouped("stats.arenas.", Numeral(a'), Middle(w'), Numeral(c'), Ending(w'), [NUL]);
    SamePrefix("stats.arenas.", Numeral(a) + (Middle(w) + last), Numeral(a') + (Middle(w') + last'));
    NumeralPrefix(a, a', Middle(w) + last, Middle(w') + last');
    SameMiddle(w, last, w', last');
    NumeralPrefix(c, c', Ending(w) + [NUL], Ending(w') + [NUL]);
  }
}

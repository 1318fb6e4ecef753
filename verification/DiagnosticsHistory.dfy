/** The diagnostics registry told from its history: what is current, what is delivered, what the callback gets. */
module DiagnosticsHistory {
  import opened Wrappers
  import opened Lru
  import opened MachineInts
  import opened StableSort
  import opened DiagnosticsModel

  // ---- the current lists ----

  /** An empty publication for the file, or the end of everything. */
  predicate Erases(op: Op, uri: Uri) { op.OpClearAll? || (op.OpPublish? && op.uri == uri && op.ds == []) }

  predicate Publishes(op: Op, uri: Uri) { op.OpPublish? && op.uri == uri && op.ds != [] }

  /** Step `i` publishes something for the file that has not been delivered. */
  ghost predicate Brings(ops: seq<Op>, i: nat, uri: Uri) {
    && i < |ops| && Publishes(ops[i], uri)
    && exists d :: d in Capped(uri, ops[i].ds) && KeyOf(d) !in DeliveredTo(Run(ops[..i]), uri)
  }

  /** The entries of that publication that have not been delivered, each key once. */
  function Brought(ops: seq<Op>, i: nat, uri: Uri): seq<Diagnostic>
    requires i < |ops| && Publishes(ops[i], uri)
  {
    Fresh(Capped(uri, ops[i].ds), DeliveredTo(Run(ops[..i]), uri))
  }

  ghost predicate Untouched(ops: seq<Op>, i: nat, uri: Uri) {
    forall j :: i < j < |ops| ==> !Erases(ops[j], uri) && !Brings(ops, j, uri)
  }

  lemma SomethingFresh(ds: seq<Diagnostic>, seen: set<Key>)
    ensures Fresh(ds, seen) != [] <==> exists d :: d in ds && KeyOf(d) !in seen
  {
    FreshNone(ds, seen);
    if d :| d in ds && KeyOf(d) !in seen { assert KeyOf(d) in KeysOf(ds); }
  }

  /** What one operation does to the list of one file. */
  lemma CurrentStep(s: State, op: Op, uri: Uri)
    ensures var s' := Apply(s, op);
            if Erases(op, uri) then uri !in s'.current
            else if Publishes(op, uri) && Fresh(Capped(uri, op.ds), DeliveredTo(s, uri)) != []
            then uri in s'.current && s'.current[uri] == Fresh(Capped(uri, op.ds), DeliveredTo(s, uri))
            else (uri in s'.current <==> uri in s.current) && GetForFile(s', uri) == GetForFile(s, uri)
  {
    hide Capped, Fresh, DeliveredTo, Evicted, Lru.Insert, Without;
  }

  lemma BringsBefore(ops: seq<Op>, i: nat, uri: Uri)
    requires ops != [] && i < |ops| - 1
    ensures Brings(ops[..|ops| - 1], i, uri) <==> Brings(ops, i, uri)
    ensures Publishes(ops[i], uri) ==> Brought(ops[..|ops| - 1], i, uri) == Brought(ops, i, uri)
  {
    assert ops[..|ops| - 1][..i] == ops[..i];
  }

  /** There is a last step that has brought something, unless something was erased since or nothing was ever brought. */
  ghost predicate Lists(ops: seq<Op>, uri: Uri, s: State) {
    if uri in s.current
    then exists i: nat :: Brings(ops, i, uri) && Untouched(ops, i, uri) && s.current[uri] == Brought(ops, i, uri)
    else forall i: nat :: Brings(ops, i, uri) ==> exists j :: i < j < |ops| && Erases(ops[j], uri)
  }

  lemma {:induction false} ListsRun(ops: seq<Op>, uri: Uri)
    ensures Lists(ops, uri, Run(ops))
  {
    hide Run, Apply, DeliveredTo, Erases, Publishes;
    if ops == [] {
      NothingListed(uri);
    } else {
      var n := |ops| - 1;
      var before := ops[..n];
      ListsRun(before, uri);
      LastStep(ops);
      CurrentStep(Run(before), ops[n], uri);
      forall i | 0 <= i < n { BringsBefore(ops, i, uri); }
      ListsNext(ops, uri);
    }
  }

  lemma NothingListed(uri: Uri)
    ensures uri !in Run([]).current
  {
  }

  lemma LastStep(ops: seq<Op>)
    requires ops != []
    ensures Run(ops) == Apply(Run(ops[..|ops| - 1]), ops[|ops| - 1])
  {
    hide Apply;
  }

  lemma ListsNext(ops: seq<Op>, uri: Uri)
    requires ops != []
    requires var n := |ops| - 1; Lists(ops[..n], uri, Run(ops[..n])) && Run(ops) == Apply(Run(ops[..n]), ops[n])
    ensures Lists(ops, uri, Run(ops))
  {
    hide Run, Apply, DeliveredTo, Fresh, Capped;
    var n, s := |ops| - 1, Run(ops[..|ops| - 1]);
    CurrentStep(s, ops[n], uri);
    if Erases(ops[n], uri) {
      assert uri !in Run(ops).current;
    } else if Publishes(ops[n], uri) && Fresh(Capped(uri, ops[n].ds), DeliveredTo(s, uri)) != [] {
      SomethingFresh(Capped(uri, ops[n].ds), DeliveredTo(s, uri));
      assert Brings(ops, n, uri) && Untouched(ops, n, uri);
    } else {
      if Publishes(ops[n], uri) { SomethingFresh(Capped(uri, ops[n].ds), DeliveredTo(s, uri)); }
      assert !Brings(ops, n, uri);
      ListsSame(ops, uri, s);
    }
  }

  /** A step that neither brings nor erases anything leaves the list as it was. */
  lemma ListsSame(ops: seq<Op>, uri: Uri, s: State)
    requires ops != [] && Lists(ops[..|ops| - 1], uri, s)
    requires !Erases(ops[|ops| - 1], uri) && !Brings(ops, |ops| - 1, uri)
    ensures Lists(ops, uri, s)
  {
    hide KeyOf, Capped, DeliveredTo, Run, Fresh, Erases;
    var before := ops[..|ops| - 1];
    forall i | 0 <= i < |before| ensures Brings(before, i, uri) == Brings(ops, i, uri) { BringsBefore(ops, i, uri); }
    if uri in s.current {
      var i: nat :| Brings(before, i, uri) && Untouched(before, i, uri) && s.current[uri] == Brought(before, i, uri);
      assert i < |before| by { BringsInside(before, i, uri); }
      BringsBefore(ops, i, uri);
      assert Untouched(ops, i, uri);
    } else {
      forall i: nat | Brings(ops, i, uri) ensures exists j :: i < j < |ops| && Erases(ops[j], uri) {
        BringsInside(ops, i, uri);
        var j :| i < j < |before| && Erases(before[j], uri);
        assert Erases(ops[j], uri);
      }
    }
  }

  lemma BringsInside(ops: seq<Op>, i: nat, uri: Uri)
    requires Brings(ops, i, uri)
    ensures i < |ops| && Publishes(ops[i], uri)
  {
  }

  /**
   In every run: a file has a current list exactly if some publication of it held a key that was not delivered, and
   nothing has erased the file since. The list is what the last such publication held of undelivered keys. Publications
   for other files do not matter.
   */
  lemma CurrentIsLastBrought(ops: seq<Op>, uri: Uri)
    ensures uri in Run(ops).current <==>
              exists i: nat :: Brings(ops, i, uri) && forall j :: i < j < |ops| ==> !Erases(ops[j], uri)
    ensures forall i: nat :: Brings(ops, i, uri) && Untouched(ops, i, uri) ==>
              GetForFile(Run(ops), uri) == Brought(ops, i, uri)
  {
    hide KeyOf, Capped, DeliveredTo, Run, Fresh;
    ListsRun(ops, uri);
    if uri in Run(ops).current {
      var i: nat :| Brings(ops, i, uri) && Untouched(ops, i, uri) && Run(ops).current[uri] == Brought(ops, i, uri);
      assert forall j :: i < j < |ops| ==> !Erases(ops[j], uri);
      forall k: nat | Brings(ops, k, uri) && Untouched(ops, k, uri) ensures k == i {
        assert !(i < k) && !(k < i);
      }
    }
  }

  lemma OtherFilesStay(s: State, op: Op, uri: Uri)
    requires op.OpPublish? && op.uri != uri
    ensures uri in Apply(s, op).current <==> uri in s.current
    ensures uri in s.current ==> Apply(s, op).current[uri] == s.current[uri]
  {
    hide Capped, Fresh, DeliveredTo, Evicted, Lru.Insert, Without;
  }

  // ---- the delivered keys ----

  /** The number of the last publication of the file that was not empty, or -1 if the file has been erased since. */
  function LastPublished(ops: seq<Op>, uri: Uri): int {
    if ops == [] then -1 else
    var n := |ops| - 1;
    if Erases(ops[n], uri) then -1 else if Publishes(ops[n], uri) then n else LastPublished(ops[..n], uri)
  }

  ghost predicate InOrderOfUse(ops: seq<Op>, es: seq<Entry<Uri, set<Key>>>) {
    && ByUse(es, uri => LastPublished(ops, uri), |ops|)
    && forall e :: e in es ==> LastPublished(ops, e.key) >= 0
  }

  lemma DeliveredNext(s: State, op: Op, use: Uri -> int, next: Uri -> int, now: nat)
    requires ByUse(s.delivered, use, now) && forall e :: e in s.delivered ==> use(e.key) >= 0
    requires forall uri :: next(uri) == if Erases(op, uri) then -1 else if Publishes(op, uri) then now else use(uri)
    ensures var es := Apply(s, op).delivered;
            ByUse(es, next, now + 1) && forall e :: e in es ==> next(e.key) >= 0
  {
    hide ByUse, Lru.Insert, Without, DeliveredTo, Fresh, Capped, KeysOf, Evicted;
    match op
    case OpPublish(u, ds) =>
      if ds == [] {
        UsedNoMore(s.delivered, u, use, next, now);
      } else {
        var v := DeliveredTo(s, u) + KeysOf(Fresh(Capped(u, ds), DeliveredTo(s, u)));
        FileUsedNow(s.delivered, u, v, use, next, now);
      }
    case OpClearAll => NothingUsed<Uri, set<Key>>(next, now + 1);
    case OpListen => LaterUse(s.delivered, use, next, now);
  }

  lemma FileUsedNow(es: seq<Entry<Uri, set<Key>>>, u: Uri, v: set<Key>, use: Uri -> int, next: Uri -> int, now: nat)
    requires ByUse(es, use, now) && forall e :: e in es ==> use(e.key) >= 0
    requires forall uri :: next(uri) == if uri == u then now else use(uri)
    ensures var r := Evicted(Lru.Insert(es, u, v), LRU_CACHE_CAPACITY);
            ByUse(r, next, now + 1) && forall e :: e in r ==> next(e.key) >= 0
  {
    hide ByUse, Lru.Insert;
    var all := Lru.Insert(es, u, v);
    UsedNow(es, u, v, use, next, now);
    if |all| > LRU_CACHE_CAPACITY { UsedAndCut(all, LRU_CACHE_CAPACITY, next, now + 1); }
    InsertedEntries(es, u, v);
    assert forall e :: e in Evicted(all, LRU_CACHE_CAPACITY) ==> e in all;
  }

  lemma InsertedEntries<K, V>(es: seq<Entry<K, V>>, k: K, v: V)
    ensures forall e :: e in Lru.Insert(es, k, v) ==> e.key == k || e in es
  {
  }

  /**
   In every run the tracked files stand in the order of their last publication, the latest first, and a file that left
   for want of room was published before all those that stayed.
   */
  lemma {:induction false} TrackedInOrder(ops: seq<Op>)
    ensures InOrderOfUse(ops, Run(ops).delivered)
  {
    hide Run, Apply, ByUse;
    if ops == [] {
      NothingUsed<Uri, set<Key>>(uri => LastPublished(ops, uri), 0);
      NothingDelivered();
    } else {
      var n := |ops| - 1;
      TrackedInOrder(ops[..n]);
      LastStep(ops);
      DeliveredNext(Run(ops[..n]), ops[n], uri => LastPublished(ops[..n], uri), uri => LastPublished(ops, uri), n);
    }
  }

  lemma NothingDelivered()
    ensures Run([]).delivered == [] && Run([]).calls == [] && !Run([]).listening
  {
  }

  /** A publication that is not empty makes its file a tracked one, and nothing else does. */
  lemma TrackedIffPublished(s: State, op: Op, uri: Uri)
    requires Valid(s) && !Tracked(s, uri)
    ensures Tracked(Apply(s, op), uri) <==> Publishes(op, uri)
  {
    hide Fresh, Capped, KeyOf;
    match op
    case OpPublish(u, ds) =>
      if ds != [] {
        var v := DeliveredTo(s, u) + KeysOf(Fresh(Capped(u, ds), DeliveredTo(s, u)));
        var all := Lru.Insert(s.delivered, u, v);
        assert Evicted(all, LRU_CACHE_CAPACITY)[0].key == u;
        InsertedEntries(s.delivered, u, v);
      }
    case _ =>
  }

  predicate PublishesKey(op: Op, uri: Uri, k: Key) { Publishes(op, uri) && k in KeysOf(Capped(uri, op.ds)) }

  ghost predicate TrackedAt(ops: seq<Op>, m: nat, uri: Uri)
    requires m <= |ops|
  {
    Tracked(Run(ops[..m]), uri)
  }

  /** Step `i` published the key, and the file has been tracked ever since. */
  ghost predicate KeyPublished(ops: seq<Op>, i: nat, uri: Uri, k: Key) {
    i < |ops| && PublishesKey(ops[i], uri, k) && forall m :: i < m <= |ops| ==> TrackedAt(ops, m, uri)
  }

  lemma DeliveredStep(s: State, op: Op, uri: Uri)
    requires Valid(s)
    ensures DeliveredTo(Apply(s, op), uri) ==
              if !Tracked(Apply(s, op), uri) then {}
              else DeliveredTo(s, uri) + if Publishes(op, uri) then KeysOf(Capped(uri, op.ds)) else {}
  {
    hide Fresh, Capped, KeysOf;
    assert DistinctKeys(s.delivered);
    match op
    case OpPublish(u, ds) =>
      if ds == [] {
        if u != uri { WithoutLookup(s.delivered, u, uri); }
      } else {
        hide DistinctKeys, Lookup, HasKey, Lru.Insert, Evicted, Without;
        FreshSpec(Capped(u, ds), DeliveredTo(s, u));
        KeysAfter(s.delivered, u, KeysOf(Fresh(Capped(u, ds), DeliveredTo(s, u))), uri);
      }
    case _ =>
  }

  lemma KeysAfter(es: seq<Entry<Uri, set<Key>>>, u: Uri, more: set<Key>, uri: Uri)
    requires DistinctKeys(es)
    ensures var r := Evicted(Lru.Insert(es, u, Lookup(es, u).GetOr({}) + more), LRU_CACHE_CAPACITY);
            Lookup(r, uri).GetOr({}) == if !HasKey(r, uri) then {}
                                        else Lookup(es, uri).GetOr({}) + if uri == u then more else {}
  {
    hide DistinctKeys, Lru.Insert, Without, Lookup, HasKey;
    var v := Lookup(es, u).GetOr({}) + more;
    var all := Lru.Insert(es, u, v);
    InsertLookup(es, u, v, uri);
    if |all| > LRU_CACHE_CAPACITY && HasKey(all[..LRU_CACHE_CAPACITY], uri) {
      PrefixLookup(all, LRU_CACHE_CAPACITY, uri);
    }
  }

  /** In every run the delivered keys of a file are those of its publications since it was tracked without a break. */
  lemma {:induction false} DeliveredIff(ops: seq<Op>, uri: Uri, k: Key)
    ensures k in DeliveredTo(Run(ops), uri) <==> exists i: nat :: KeyPublished(ops, i, uri, k)
  {
    hide Run, Apply, DeliveredTo, Valid, Tracked, Publishes;
    if ops == [] {
      NothingDelivered();
      assert DeliveredTo(Run([]), uri) == {} by { NothingTo(Run([]), uri); }
    } else {
      var n := |ops| - 1;
      DeliveredIff(ops[..n], uri, k);
      EveryRun(ops[..n]);
      LastStep(ops);
      DeliveredStep(Run(ops[..n]), ops[n], uri);
      KeyPublishedNext(ops, uri, k);
    }
  }

  lemma NothingTo(s: State, uri: Uri)
    requires s.delivered == []
    ensures DeliveredTo(s, uri) == {}
  {
  }

  lemma TrackedBefore(ops: seq<Op>, m: nat, uri: Uri)
    requires ops != [] && m < |ops|
    ensures TrackedAt(ops[..|ops| - 1], m, uri) == TrackedAt(ops, m, uri)
    ensures TrackedAt(ops, |ops|, uri) == Tracked(Run(ops), uri)
  {
    assert ops[..|ops| - 1][..m] == ops[..m] && ops[..|ops|] == ops;
  }

  lemma KeyStays(ops: seq<Op>, i: nat, uri: Uri, k: Key)
    requires ops != [] && i < |ops| - 1
    ensures KeyPublished(ops, i, uri, k) <==>
              KeyPublished(ops[..|ops| - 1], i, uri, k) && Tracked(Run(ops), uri)
  {
    hide Run, Tracked, PublishesKey, TrackedAt;
    var before := ops[..|ops| - 1];
    assert before[i] == ops[i];
    forall m | 0 <= m < |ops| ensures TrackedAt(before, m, uri) == TrackedAt(ops, m, uri) {
      TrackedBefore(ops, m, uri);
    }
    TrackedBefore(ops, 0, uri);
  }

  lemma KeyPublishedNext(ops: seq<Op>, uri: Uri, k: Key)
    requires ops != []
    ensures var n := |ops| - 1;
            (exists i: nat :: KeyPublished(ops, i, uri, k)) <==>
              Tracked(Run(ops), uri)
              && ((exists i: nat :: KeyPublished(ops[..n], i, uri, k)) || PublishesKey(ops[n], uri, k))
  {
    hide Run, Tracked, PublishesKey, TrackedAt;
    var n := |ops| - 1;
    TrackedBefore(ops, 0, uri);
    if i: nat :| KeyPublished(ops[..n], i, uri, k) { KeyStays(ops, i, uri, k); }
    if PublishesKey(ops[n], uri, k) && Tracked(Run(ops), uri) {
      assert KeyPublished(ops, n, uri, k);
    }
    if i: nat :| KeyPublished(ops, i, uri, k) {
      assert TrackedAt(ops, |ops|, uri);
      if i < n { KeyStays(ops, i, uri, k); }
    }
  }

  // ---- the callback ----

  predicate Listening(ops: seq<Op>) { exists j :: 0 <= j < |ops| && ops[j].OpListen? }

  lemma {:induction false} ListensIff(ops: seq<Op>)
    ensures Run(ops).listening <==> Listening(ops)
  {
    hide Apply;
    if ops != [] {
      var n := |ops| - 1;
      ListensIff(ops[..n]);
      ListeningStep(Run(ops[..n]), ops[n]);
      assert ops[n].OpListen? ==> Listening(ops);
      assert Listening(ops[..n]) ==> Listening(ops);
    }
  }

  lemma ListeningStep(s: State, op: Op)
    ensures Apply(s, op).listening <==> s.listening || op.OpListen?
  {
  }

  /** Every step that brings something calls the callback once, with what it brought; no other step does. */
  lemma CallbackIffBrought(ops: seq<Op>, i: nat)
    requires i < |ops|
    ensures Run(ops[..i + 1]).calls == Run(ops[..i]).calls +
              if ops[i].OpPublish? && Brings(ops, i, ops[i].uri) && Listening(ops[..i])
              then [Delivery(ops[i].uri, Brought(ops, i, ops[i].uri))] else []
  {
    RunNext(ops, i);
    ListensIff(ops[..i]);
    if ops[i].OpPublish? && ops[i].ds != [] {
      var uri := ops[i].uri;
      hide Run, Capped, DeliveredTo, KeyOf, Fresh, Listening, Evicted, Lru.Insert;
      SomethingFresh(Capped(uri, ops[i].ds), DeliveredTo(Run(ops[..i]), uri));
    }
  }

  // ---- what a publication is turned into ----

  /** The protocol numbers the severities from the most severe on; anything else counts as information. */
  lemma SeverityNumbers(n: int)
    ensures 1 <= n <= 4 ==> Rank(FromLsp(Some(n))) == n
    ensures !(1 <= n <= 4) ==> FromLsp(Some(n)) == Information
    ensures FromLsp(None) == Information
    ensures FromLsp(Some(1)) == Error && FromLsp(Some(2)) == Warning && FromLsp(Some(4)) == Hint
  {
  }

  /** Positions are shown counting from one; only the last line and column of 32 bits come out as 0. */
  lemma ShownFromOne(uri: Uri, p: Published)
    requires p.line < TWO_32 && p.character < TWO_32
    ensures var d := Convert(uri, p);
            && d.uri == uri && d.message == p.message && d.source == p.source && d.severity == FromLsp(p.severity)
            && (d.line == p.line + 1 <==> p.line != TWO_32 - 1) && (p.line == TWO_32 - 1 ==> d.line == 0)
            && (d.character == p.character + 1 <==> p.character != TWO_32 - 1)
            && (p.character == TWO_32 - 1 ==> d.character == 0)
  {
  }

  lemma {:induction false} EqualsConcat<T>(a: seq<T>, b: seq<T>, x: T, before: (T, T) -> bool)
    ensures Equals(a + b, x, before) == Equals(a, x, before) + Equals(b, x, before)
  {
    if a == [] {
      assert a + b == b;
    } else {
      assert (a + b)[1..] == a[1..] + b;
      EqualsConcat(a[1..], b, x, before);
    }
  }

  lemma RanksAscend(r: seq<Diagnostic>, rest: multiset<Diagnostic>)
    requires Sorted(r, MoreSevere) && forall kept, left :: kept in r && left in rest ==> !MoreSevere(left, kept)
    ensures forall i, j :: 0 <= i < j < |r| ==> Rank(r[i].severity) <= Rank(r[j].severity)
    ensures forall kept, left :: kept in r && left in rest ==> Rank(kept.severity) <= Rank(left.severity)
  {
    hide Rank;
    forall i, j | 0 <= i < j < |r| ensures Rank(r[i].severity) <= Rank(r[j].severity) {
      assert !MoreSevere(r[j], r[i]);
    }
  }

  /**
   Of a publication the ten most severe diagnostics are kept, or all if there are fewer: sorted, nothing left out more
   severe than anything kept, and equally severe ones the earliest, in the order published.
   */
  lemma KeepsTheWorst(uri: Uri, ds: seq<Published>)
    ensures var all, r := ConvertAll(uri, ds), Capped(uri, ds);
            && |r| == (if |ds| < MAX_DIAGNOSTICS_PER_FILE then |ds| else MAX_DIAGNOSTICS_PER_FILE)
            && (forall i, j :: 0 <= i < j < |r| ==> Rank(r[i].severity) <= Rank(r[j].severity))
            && multiset(r) <= multiset(all)
            && (forall kept, left :: kept in r && left in multiset(all) - multiset(r) ==>
                  Rank(kept.severity) <= Rank(left.severity))
            && (forall x :: Equals(r, x, MoreSevere) <= Equals(all, x, MoreSevere))
  {
    var all, r := ConvertAll(uri, ds), Capped(uri, ds);
    hide ConvertAll, Sort, MoreSevere, Equals, Rank, Sorted;
    SeverityOrder();
    SortSorts(all, MoreSevere);
    WorstOfSorted(Sort(all, MoreSevere), |r|);
    assert r == Sort(all, MoreSevere)[..|r|];
    forall x ensures Equals(r, x, MoreSevere) <= Equals(all, x, MoreSevere) {
      SortIsStable(all, x, MoreSevere);
      EqualsOfPrefix(Sort(all, MoreSevere), |r|, x);
    }
  }

  lemma WorstOfSorted(sorted: seq<Diagnostic>, n: nat)
    requires Sorted(sorted, MoreSevere) && n <= |sorted|
    ensures var r := sorted[..n];
            && (forall i, j :: 0 <= i < j < |r| ==> Rank(r[i].severity) <= Rank(r[j].severity))
            && multiset(r) <= multiset(sorted)
            && (forall kept, left :: kept in r && left in multiset(sorted) - multiset(r) ==>
                  Rank(kept.severity) <= Rank(left.severity))
  {
    hide MoreSevere, Rank;
    CutSorted(sorted, n);
    assert Sorted(sorted[..n], MoreSevere);
    hide Sorted;
    RanksAscend(sorted[..n], multiset(sorted[n..]));
  }

  lemma EqualsOfPrefix(sorted: seq<Diagnostic>, n: nat, x: Diagnostic)
    requires n <= |sorted|
    ensures Equals(sorted[..n], x, MoreSevere) <= Equals(sorted, x, MoreSevere)
  {
    assert sorted == sorted[..n] + sorted[n..];
    EqualsConcat(sorted[..n], sorted[n..], x, MoreSevere);
  }
}

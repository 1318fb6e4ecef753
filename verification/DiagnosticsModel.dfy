/**
 The diagnostics registry (cc-lsp/src/diagnostics.rs): the current list of every file, next to an LRU of the keys
 that were already delivered. Module Diagnostics is the object.
 */
module DiagnosticsModel {
  import opened Wrappers
  import opened Lru
  import opened Decimal
  import opened MachineInts
  import opened StableSort

  type Uri = string

  const MAX_DIAGNOSTICS_PER_FILE: nat := 10
  const MAX_TOTAL_DIAGNOSTICS: nat := 30
  const LRU_CACHE_CAPACITY: nat := 500

  datatype Severity = Error | Warning | Information | Hint

  function Rank(s: Severity): nat {
    match s
    case Error => 1
    case Warning => 2
    case Information => 3
    case Hint => 4
  }

  /** The protocol's severity number; an unknown one counts as information, and so does none at all. */
  function FromLsp(code: Option<int>): Severity {
    match code
    case None => Information
    case Some(n) => if n == 1 then Error else if n == 2 then Warning else if n == 4 then Hint else Information
  }

  datatype Published = Published(line: nat, character: nat, severity: Option<int>, message: string,
                                 source: Option<string>)

  datatype Diagnostic = Diagnostic(uri: Uri, line: nat, character: nat, severity: Severity, message: string,
                                   source: Option<string>)

  /** Positions become one-based, in 32 bits. */
  function Convert(uri: Uri, d: Published): Diagnostic {
    Diagnostic(uri, (d.line + 1) % TWO_32, (d.character + 1) % TWO_32, FromLsp(d.severity), d.message, d.source)
  }

  function SeverityName(s: Severity): string {
    match s
    case Error => "Error"
    case Warning => "Warning"
    case Information => "Information"
    case Hint => "Hint"
  }

  type Key = string

  function KeyOf(d: Diagnostic): Key {
    SeverityName(d.severity) + (":" + (Numeral(d.line) + (":" + (Numeral(d.character) + (":" + d.message)))))
  }

  predicate MoreSevere(a: Diagnostic, b: Diagnostic) { Rank(a.severity) < Rank(b.severity) }

  function Truncate<T>(xs: seq<T>, n: nat): seq<T> { if |xs| <= n then xs else xs[..n] }

  function ConvertAll(uri: Uri, ds: seq<Published>): (r: seq<Diagnostic>)
    ensures |r| == |ds| && forall i :: 0 <= i < |r| ==> r[i] == Convert(uri, ds[i])
  {
    if ds == [] then [] else [Convert(uri, ds[0])] + ConvertAll(uri, ds[1..])
  }

  /** What is left of a publication after sorting and the limit per file. */
  function Capped(uri: Uri, ds: seq<Published>): (r: seq<Diagnostic>)
    ensures |r| <= MAX_DIAGNOSTICS_PER_FILE && (ds != [] ==> r != [])
  {
    Truncate(Sort(ConvertAll(uri, ds), MoreSevere), MAX_DIAGNOSTICS_PER_FILE)
  }

  function KeysOf(ds: seq<Diagnostic>): set<Key> { set d | d in ds :: KeyOf(d) }

  /** The entries whose key is neither in `seen` nor the key of an earlier one. */
  function Fresh(ds: seq<Diagnostic>, seen: set<Key>): (r: seq<Diagnostic>)
    ensures |r| <= |ds|
  {
    if ds == [] then []
    else if KeyOf(ds[0]) in seen then Fresh(ds[1..], seen)
    else [ds[0]] + Fresh(ds[1..], seen + {KeyOf(ds[0])})
  }

  datatype Delivery = Delivery(uri: Uri, entries: seq<Diagnostic>)

  datatype State = State(current: map<Uri, seq<Diagnostic>>, delivered: seq<Entry<Uri, set<Key>>>,
                         listening: bool, calls: seq<Delivery>)

  function DeliveredTo(s: State, uri: Uri): set<Key> { Lookup(s.delivered, uri).GetOr({}) }

  /** A publication that is not empty; an empty one clears the file. */
  function Publish(s: State, uri: Uri, ds: seq<Published>): State {
    if ds == [] then s.(current := s.current - {uri}, delivered := Without(s.delivered, uri))
    else
      var entries := Capped(uri, ds);
      var seen := DeliveredTo(s, uri);
      var news := Fresh(entries, seen);
      var s1 := s.(delivered := Evicted(Lru.Insert(s.delivered, uri, seen + KeysOf(news)), LRU_CACHE_CAPACITY));
      if news == [] then s1
      else s1.(current := s.current[uri := news],
               calls := if s.listening then s.calls + [Delivery(uri, news)] else s.calls)
  }

  function ClearAll(s: State): State { s.(current := map[], delivered := []) }

  function New(): State { State(map[], [], false, []) }

  datatype Op = OpPublish(uri: Uri, ds: seq<Published>) | OpClearAll | OpListen

  function Apply(s: State, op: Op): State {
    match op
    case OpPublish(uri, ds) => Publish(s, uri, ds)
    case OpClearAll => ClearAll(s)
    case OpListen => s.(listening := true)
  }

  function Run(ops: seq<Op>): State {
    if ops == [] then New() else Apply(Run(ops[..|ops| - 1]), ops[|ops| - 1])
  }

  // ---- keys ----

  lemma NameExact(a: Severity, b: Severity, x: string, y: string)
    requires SeverityName(a) + x == SeverityName(b) + y
    ensures a == b && x == y
  {
    assert (SeverityName(a) + x)[0] == SeverityName(a)[0] && (SeverityName(b) + y)[0] == SeverityName(b)[0];
    assert x == (SeverityName(a) + x)[|SeverityName(a)|..] && y == (SeverityName(b) + y)[|SeverityName(b)|..];
  }

  lemma ColonExact(x: string, y: string)
    requires ":" + x == ":" + y
    ensures x == y
  {
    assert x == (":" + x)[1..] && y == (":" + y)[1..];
  }

  /** The key tells two diagnostics of one file apart just by severity, position and message. */
  lemma KeyIsExact(a: Diagnostic, b: Diagnostic)
    ensures KeyOf(a) == KeyOf(b) <==>
              a.severity == b.severity && a.line == b.line && a.character == b.character && a.message == b.message
  {
    if KeyOf(a) == KeyOf(b) {
      var a3, b3 := ":" + a.message, ":" + b.message;
      var a2, b2 := ":" + (Numeral(a.character) + a3), ":" + (Numeral(b.character) + b3);
      NameExact(a.severity, b.severity, ":" + (Numeral(a.line) + a2), ":" + (Numeral(b.line) + b2));
      ColonExact(Numeral(a.line) + a2, Numeral(b.line) + b2);
      NumeralPrefix(a.line, b.line, a2, b2);
      ColonExact(Numeral(a.character) + a3, Numeral(b.character) + b3);
      NumeralPrefix(a.character, b.character, a3, b3);
      ColonExact(a.message, b.message);
    }
  }

  // ---- what one publication lets through ----

  ghost predicate DistinctDiagnostics(ds: seq<Diagnostic>) {
    forall i, j :: 0 <= i < j < |ds| ==> KeyOf(ds[i]) != KeyOf(ds[j])
  }

  lemma {:induction false} FreshKeys(ds: seq<Diagnostic>, seen: set<Key>)
    ensures KeysOf(Fresh(ds, seen)) !! seen && seen + KeysOf(Fresh(ds, seen)) == seen + KeysOf(ds)
  {
    if ds != [] {
      var k, rest := KeyOf(ds[0]), ds[1..];
      assert forall d :: d in ds <==> d == ds[0] || d in rest;
      assert KeysOf(ds) == {k} + KeysOf(rest);
      FreshKeys(rest, seen + {k});
      FreshKeys(rest, seen);
      if k !in seen {
        var more := Fresh(rest, seen + {k});
        assert forall d :: d in Fresh(ds, seen) <==> d == ds[0] || d in more;
        assert KeysOf(Fresh(ds, seen)) == {k} + KeysOf(more);
      }
    }
  }

  lemma {:induction false} FreshDistinct(ds: seq<Diagnostic>, seen: set<Key>)
    ensures DistinctDiagnostics(Fresh(ds, seen))
  {
    if ds != [] {
      var k := KeyOf(ds[0]);
      FreshDistinct(ds[1..], if k in seen then seen else seen + {k});
      if k !in seen {
        var rest := Fresh(ds[1..], seen + {k});
        FreshKeys(ds[1..], seen + {k});
        forall j | 0 <= j < |rest| ensures KeyOf(rest[j]) != k {
          assert KeyOf(rest[j]) in KeysOf(rest);
        }
      }
    }
  }

  lemma {:induction false} FreshOrder(ds: seq<Diagnostic>, seen: set<Key>)
    ensures forall d :: d in Fresh(ds, seen) ==> d in ds
    ensures Sorted(ds, MoreSevere) ==> Sorted(Fresh(ds, seen), MoreSevere)
  {
    if ds != [] {
      var seen' := if KeyOf(ds[0]) in seen then seen else seen + {KeyOf(ds[0])};
      FreshOrder(ds[1..], seen');
      var rest := Fresh(ds[1..], seen');
      if Sorted(ds, MoreSevere) {
        forall j | 0 <= j < |rest| ensures !MoreSevere(rest[j], ds[0]) {
          assert rest[j] in ds[1..];
        }
      }
    }
  }

  lemma KeysAppend(ds: seq<Diagnostic>, d: Diagnostic)
    ensures KeysOf(ds + [d]) == KeysOf(ds) + {KeyOf(d)}
  {
    assert forall x :: x in ds + [d] <==> x in ds || x == d;
  }

  lemma NothingFresh(seen: set<Key>)
    ensures Fresh([], seen) == [] && KeysOf([]) == {}
  {
  }

  lemma FreshNext(ds: seq<Diagnostic>, i: nat, seen: set<Key>)
    requires i < |ds|
    ensures Fresh(ds[i..], seen) == if KeyOf(ds[i]) in seen then Fresh(ds[i + 1..], seen)
                                    else [ds[i]] + Fresh(ds[i + 1..], seen + {KeyOf(ds[i])})
  {
    assert ds[i..][0] == ds[i] && ds[i..][1..] == ds[i + 1..];
  }

  /** The new entries have new and distinct keys, keep their order, and cover every key that was not seen. */
  lemma FreshSpec(ds: seq<Diagnostic>, seen: set<Key>)
    ensures var r := Fresh(ds, seen);
            && DistinctDiagnostics(r) && KeysOf(r) !! seen && seen + KeysOf(r) == seen + KeysOf(ds)
            && (forall d :: d in r ==> d in ds)
            && (Sorted(ds, MoreSevere) ==> Sorted(r, MoreSevere))
  {
    FreshKeys(ds, seen);
    FreshDistinct(ds, seen);
    FreshOrder(ds, seen);
  }

  // ---- what every run keeps ----

  /** A current list is what one publication let through: not empty, at most ten long, sorted and without repetition. */
  ghost predicate ListOk(uri: Uri, ds: seq<Diagnostic>) {
    && 1 <= |ds| <= MAX_DIAGNOSTICS_PER_FILE
    && Sorted(ds, MoreSevere) && DistinctDiagnostics(ds)
    && (forall d :: d in ds ==> d.uri == uri)
  }

  ghost predicate Valid(s: State) {
    && (forall uri :: uri in s.current ==> ListOk(uri, s.current[uri]))
    && DistinctKeys(s.delivered) && |s.delivered| <= LRU_CACHE_CAPACITY
    && (forall c :: c in s.calls ==> ListOk(c.uri, c.entries))
  }

  lemma SeverityOrder()
    ensures StrictWeak(MoreSevere)
  {
  }

  lemma CappedSorted(uri: Uri, ds: seq<Published>)
    ensures Sorted(Capped(uri, ds), MoreSevere)
    ensures forall d :: d in Capped(uri, ds) ==> d.uri == uri
  {
    SeverityOrder();
    var all := ConvertAll(uri, ds);
    SortSorts(all, MoreSevere);
    forall d | d in Capped(uri, ds) ensures d.uri == uri {
      InSort(all, MoreSevere, d);
    }
  }

  lemma NewsOk(uri: Uri, ds: seq<Published>, seen: set<Key>)
    requires Fresh(Capped(uri, ds), seen) != []
    ensures ListOk(uri, Fresh(Capped(uri, ds), seen))
  {
    CappedSorted(uri, ds);
    FreshSpec(Capped(uri, ds), seen);
  }

  lemma DeliveredOk(s: State, uri: Uri, ds: seq<Published>)
    requires DistinctKeys(s.delivered) && |s.delivered| <= LRU_CACHE_CAPACITY
    ensures DistinctKeys(Publish(s, uri, ds).delivered) && |Publish(s, uri, ds).delivered| <= LRU_CACHE_CAPACITY
  {
    hide Capped, Fresh, KeysOf, Without, DeliveredTo;
    WithoutDistinct(s.delivered, uri);
    if ds != [] {
      var v := DeliveredTo(s, uri) + KeysOf(Fresh(Capped(uri, ds), DeliveredTo(s, uri)));
      InsertDistinct(s.delivered, uri, v);
      CutDistinct(Lru.Insert(s.delivered, uri, v), LRU_CACHE_CAPACITY);
    }
  }

  lemma PublishKeeps(s: State, uri: Uri, ds: seq<Published>)
    requires Valid(s)
    ensures Valid(Publish(s, uri, ds))
  {
    DeliveredOk(s, uri, ds);
    if ds != [] && Fresh(Capped(uri, ds), DeliveredTo(s, uri)) != [] {
      NewsOk(uri, ds, DeliveredTo(s, uri));
    }
  }

  lemma {:induction false} EveryRun(ops: seq<Op>)
    ensures Valid(Run(ops))
  {
    if ops != [] {
      EveryRun(ops[..|ops| - 1]);
      match ops[|ops| - 1]
      case OpPublish(uri, ds) => PublishKeeps(Run(ops[..|ops| - 1]), uri, ds);
      case _ =>
    }
  }

  // ---- no key is delivered twice ----

  /** Step `i` of the run hands the callback an entry of file `uri` with key `k`. */
  ghost predicate Delivers(ops: seq<Op>, i: nat, uri: Uri, k: Key)
    requires i < |ops|
  {
    exists c: Delivery :: Run(ops[..i + 1]).calls == Run(ops[..i]).calls + [c] && c.uri == uri && k in KeysOf(c.entries)
  }

  ghost predicate Tracked(s: State, uri: Uri) { HasKey(s.delivered, uri) }

  lemma RunNext(ops: seq<Op>, i: nat)
    requires i < |ops|
    ensures Run(ops[..i + 1]) == Apply(Run(ops[..i]), ops[i])
  {
    assert ops[..i + 1][..i] == ops[..i];
  }

  /** While a file stays tracked, its delivered keys only grow. */
  lemma DeliveredGrows(s: State, op: Op, uri: Uri)
    requires Valid(s) && Tracked(Apply(s, op), uri)
    ensures DeliveredTo(s, uri) <= DeliveredTo(Apply(s, op), uri)
  {
    assert DistinctKeys(s.delivered);
    hide Valid, Fresh, Capped, KeysOf;
    match op
    case OpPublish(u, ds) =>
      if ds == [] {
        if u != uri { WithoutLookup(s.delivered, u, uri); }
      } else {
        TrackedGrows(s.delivered, u, KeysOf(Fresh(Capped(u, ds), DeliveredTo(s, u))), uri);
      }
    case _ =>
  }

  lemma TrackedGrows(delivered: seq<Entry<Uri, set<Key>>>, u: Uri, more: set<Key>, uri: Uri)
    requires DistinctKeys(delivered)
    requires HasKey(Evicted(Lru.Insert(delivered, u, Lookup(delivered, u).GetOr({}) + more), LRU_CACHE_CAPACITY), uri)
    ensures Lookup(delivered, uri).GetOr({}) <=
              Lookup(Evicted(Lru.Insert(delivered, u, Lookup(delivered, u).GetOr({}) + more), LRU_CACHE_CAPACITY), uri)
              .GetOr({})
  {
    hide DistinctKeys, Lookup, Lru.Insert, HasKey;
    var v := Lookup(delivered, u).GetOr({}) + more;
    var all := Lru.Insert(delivered, u, v);
    InsertLookup(delivered, u, v, uri);
    if |all| > LRU_CACHE_CAPACITY { PrefixLookup(all, LRU_CACHE_CAPACITY, uri); }
  }

  /** A delivered key was not in the delivered set before, and is in it afterwards. */
  lemma DeliveredOnce(s: State, op: Op, uri: Uri, k: Key, c: Delivery)
    requires Valid(s) && Apply(s, op).calls == s.calls + [c] && c.uri == uri && k in KeysOf(c.entries)
    ensures op.OpPublish? && op.uri == uri
    ensures k !in DeliveredTo(s, uri) && k in DeliveredTo(Apply(s, op), uri) && Tracked(Apply(s, op), uri)
  {
    assert |Apply(s, op).calls| != |s.calls|;
    assert op.OpPublish? && op.ds != [];
    var u, ds := op.uri, op.ds;
    var news := Fresh(Capped(u, ds), DeliveredTo(s, u));
    assert Apply(s, op).calls[|s.calls|] == c == Delivery(u, news);
    FreshSpec(Capped(u, ds), DeliveredTo(s, u));
    var all := Lru.Insert(s.delivered, u, DeliveredTo(s, u) + KeysOf(news));
    assert Apply(s, op).delivered[0] == all[0];
  }

  lemma {:induction false} StaysDelivered(ops: seq<Op>, i: nat, j: nat, uri: Uri, k: Key)
    requires i <= j <= |ops| && k in DeliveredTo(Run(ops[..i]), uri)
    requires forall m :: i <= m <= j ==> Tracked(Run(ops[..m]), uri)
    ensures k in DeliveredTo(Run(ops[..j]), uri)
    decreases j
  {
    hide Run, Apply, Valid, DeliveredTo, Tracked;
    if i < j {
      StaysDelivered(ops, i, j - 1, uri, k);
      RunNext(ops, j - 1);
      EveryRun(ops[..j - 1]);
      DeliveredGrows(Run(ops[..j - 1]), ops[j - 1], uri);
    }
  }

  /**
   In every run: if the same key of the same file reaches the callback twice, the file had left the LRU in between.
   */
  lemma NoKeyTwice(ops: seq<Op>, i: nat, j: nat, uri: Uri, k: Key)
    requires i < j < |ops| && Delivers(ops, i, uri, k) && Delivers(ops, j, uri, k)
    ensures exists m :: i < m <= j && !Tracked(Run(ops[..m]), uri)
  {
    RunNext(ops, i);
    RunNext(ops, j);
    EveryRun(ops[..i]);
    EveryRun(ops[..j]);
    var c: Delivery :| Run(ops[..i + 1]).calls == Run(ops[..i]).calls + [c] && c.uri == uri && k in KeysOf(c.entries);
    var d: Delivery :| Run(ops[..j + 1]).calls == Run(ops[..j]).calls + [d] && d.uri == uri && k in KeysOf(d.entries);
    DeliveredOnce(Run(ops[..i]), ops[i], uri, k, c);
    DeliveredOnce(Run(ops[..j]), ops[j], uri, k, d);
    if forall m :: i < m <= j ==> Tracked(Run(ops[..m]), uri) {
      StaysDelivered(ops, i + 1, j, uri, k);
    }
  }

  /**
   A file leaves the LRU just when everything is cleared, when an empty list is published for it, or when it is the
   least recent of 500 and an untracked file is published.
   */
  lemma LeavesOnlyIf(s: State, op: Op, uri: Uri)
    requires Valid(s) && Tracked(s, uri)
    ensures !Tracked(Apply(s, op), uri) <==>
              (op.OpClearAll?
               || (op.OpPublish? && op.uri == uri && op.ds == [])
               || (op.OpPublish? && op.ds != [] && !Tracked(s, op.uri) && |s.delivered| == LRU_CACHE_CAPACITY
                   && s.delivered[|s.delivered| - 1].key == uri))
  {
    var p :| 0 <= p < |s.delivered| && s.delivered[p].key == uri;
    if op.OpPublish? && op.ds == [] && op.uri != uri {
      assert s.delivered[p] in Without(s.delivered, op.uri);
    }
    if op.OpPublish? && op.ds != [] {
      LeavesOnPublish(s, op.uri, op.ds, uri, p);
    }
  }

  lemma LeavesOnPublish(s: State, u: Uri, ds: seq<Published>, uri: Uri, p: nat)
    requires Valid(s) && ds != [] && p < |s.delivered| && s.delivered[p].key == uri
    ensures !Tracked(Publish(s, u, ds), uri) <==>
              !Tracked(s, u) && |s.delivered| == LRU_CACHE_CAPACITY && p == LRU_CACHE_CAPACITY - 1
  {
    var v := DeliveredTo(s, u) + KeysOf(Fresh(Capped(u, ds), DeliveredTo(s, u)));
    InsertEvicts(s.delivered, u, v, LRU_CACHE_CAPACITY, p);
    assert Publish(s, u, ds).delivered == Evicted(Lru.Insert(s.delivered, u, v), LRU_CACHE_CAPACITY);
  }

  // ---- what the current list of a file is ----

  lemma FreshNone(ds: seq<Diagnostic>, seen: set<Key>)
    ensures Fresh(ds, seen) == [] <==> KeysOf(ds) <= seen
  {
    FreshKeys(ds, seen);
    if Fresh(ds, seen) != [] {
      assert KeyOf(Fresh(ds, seen)[0]) in KeysOf(Fresh(ds, seen));
    }
  }

  lemma {:induction false} FreshAll(ds: seq<Diagnostic>, seen: set<Key>)
    requires DistinctDiagnostics(ds) && KeysOf(ds) !! seen
    ensures Fresh(ds, seen) == ds
  {
    if ds != [] {
      assert KeyOf(ds[0]) in KeysOf(ds);
      forall d | d in ds[1..] ensures KeyOf(d) !in seen + {KeyOf(ds[0])} {
        var i :| 0 <= i < |ds[1..]| && ds[1..][i] == d;
        assert d == ds[i + 1] && KeyOf(d) in KeysOf(ds);
      }
      FreshAll(ds[1..], seen + {KeyOf(ds[0])});
    }
  }

  function GetForFile(s: State, uri: Uri): seq<Diagnostic> {
    if uri in s.current then s.current[uri] else []
  }

  /**
   The current list is meant to hold the diagnostics of the last publication. It does so just when none of them was
   delivered before, or when all of them were and the list held them already.
   */
  lemma CurrentIsPublishedIff(s: State, uri: Uri, ds: seq<Published>)
    requires ds != []
    ensures var entries, seen := Capped(uri, ds), DeliveredTo(s, uri);
            GetForFile(Publish(s, uri, ds), uri) == entries <==>
              (DistinctDiagnostics(entries) && KeysOf(entries) !! seen)
              || (KeysOf(entries) <= seen && GetForFile(s, uri) == entries)
  {
    var entries, seen := Capped(uri, ds), DeliveredTo(s, uri);
    FreshNone(entries, seen);
    FreshSpec(entries, seen);
    if DistinctDiagnostics(entries) && KeysOf(entries) !! seen {
      FreshAll(entries, seen);
    }
  }

  lemma OneCapped(uri: Uri, a: Published)
    ensures Capped(uri, [a]) == [Convert(uri, a)]
  {
    assert [a][1..] == [] && [Convert(uri, a)][1..] == [];
    assert ConvertAll(uri, [a]) == [Convert(uri, a)];
    assert Sort([Convert(uri, a)], MoreSevere) == [Convert(uri, a)];
  }

  lemma TwoCapped(uri: Uri, a: Published, b: Published)
    requires Rank(FromLsp(a.severity)) <= Rank(FromLsp(b.severity))
    ensures Capped(uri, [a, b]) == [Convert(uri, a), Convert(uri, b)]
  {
    var x, y := Convert(uri, a), Convert(uri, b);
    assert [a, b][1..] == [b] && [b][1..] == [] && [x, y][1..] == [y] && [y][1..] == [];
    assert ConvertAll(uri, [a, b]) == [x, y];
    SortSorted([x, y], MoreSevere);
  }

  /** One diagnostic is published, and then it and a second one: the current list forgets the first. */
  lemma CurrentForgets(uri: Uri, a: Published, b: Published)
    requires a.severity == b.severity && a.line == b.line && a.character == b.character && a.message != b.message
    ensures var s := Run([OpPublish(uri, [a]), OpPublish(uri, [a, b])]);
            Capped(uri, [a, b]) == [Convert(uri, a), Convert(uri, b)] && GetForFile(s, uri) == [Convert(uri, b)]
  {
    hide Publish, GetForFile, Capped, Convert, KeyOf, DeliveredTo;
    var first, second := OpPublish(uri, [a]), OpPublish(uri, [a, b]);
    assert [first, second][..1] == [first] && [first][..0] == [];
    assert Run([first]) == Apply(Run([]), first) && Run([first, second]) == Apply(Run([first]), second);
    OneDelivered(uri, a);
    TwoCapped(uri, a, b);
    OnlyTheSecond(Publish(New(), uri, [a]), uri, a, b);
  }

  lemma OneDelivered(uri: Uri, a: Published)
    ensures DeliveredTo(Publish(New(), uri, [a]), uri) == {KeyOf(Convert(uri, a))}
  {
    hide KeyOf, Convert, Capped, Without;
    OneCapped(uri, a);
    var x := Convert(uri, a);
    assert [x][1..] == [] && Fresh([x], {}) == [x];
    assert KeysOf([x]) == {KeyOf(x)};
    InsertLookup([], uri, {} + KeysOf([x]), uri);
    assert |Lru.Insert([], uri, {} + KeysOf([x]))| == 1;
  }

  lemma OnlyTheSecond(s: State, uri: Uri, a: Published, b: Published)
    requires a.severity == b.severity && a.line == b.line && a.character == b.character && a.message != b.message
    requires DeliveredTo(s, uri) == {KeyOf(Convert(uri, a))}
    ensures GetForFile(Publish(s, uri, [a, b]), uri) == [Convert(uri, b)]
  {
    var x, y := Convert(uri, a), Convert(uri, b);
    TwoCapped(uri, a, b);
    KeyIsExact(x, y);
    hide KeyOf, Convert, Capped, DeliveredTo, Evicted, Lru.Insert;
    assert [x, y][1..] == [y] && [y][1..] == [];
    assert Fresh([x, y], {KeyOf(x)}) == [y];
  }

  // ---- queries over all files, in whatever order the map is walked ----

  ghost predicate Enumerates(order: seq<Uri>, uris: set<Uri>) {
    (forall i, j :: 0 <= i < j < |order| ==> order[i] != order[j]) && (set u | u in order) == uris
  }

  function Stored(current: map<Uri, seq<Diagnostic>>, order: seq<Uri>): seq<Diagnostic>
    requires forall u :: u in order ==> u in current
  {
    if order == [] then [] else current[order[0]] + Stored(current, order[1..])
  }

  function GetAll(current: map<Uri, seq<Diagnostic>>, order: seq<Uri>): seq<Diagnostic>
    requires forall u :: u in order ==> u in current
  {
    Truncate(Sort(Stored(current, order), MoreSevere), MAX_TOTAL_DIAGNOSTICS)
  }

  lemma {:induction false} StoredConcat(current: map<Uri, seq<Diagnostic>>, a: seq<Uri>, b: seq<Uri>)
    requires forall u :: u in a || u in b ==> u in current
    ensures Stored(current, a + b) == Stored(current, a) + Stored(current, b)
  {
    if a == [] {
      assert a + b == b;
    } else {
      assert (a + b)[1..] == a[1..] + b;
      StoredConcat(current, a[1..], b);
    }
  }

  lemma StoredNext(current: map<Uri, seq<Diagnostic>>, order: seq<Uri>, i: nat)
    requires i < |order| && forall u :: u in order ==> u in current
    ensures Stored(current, order[..i + 1]) == Stored(current, order[..i]) + current[order[i]]
    ensures forall u :: u in order[..i + 1] <==> u in order[..i] || u == order[i]
  {
    assert order[..i + 1] == order[..i] + [order[i]];
    StoredConcat(current, order[..i], [order[i]]);
    assert Stored(current, [order[i]]) == current[order[i]];
  }

  lemma EnumeratesTail(a: seq<Uri>, uris: set<Uri>)
    requires a != [] && Enumerates(a, uris)
    ensures a[0] in uris && Enumerates(a[1..], uris - {a[0]})
  {
    assert a == [a[0]] + a[1..];
    forall u ensures u in uris - {a[0]} <==> u in a[1..] {
      assert u in uris <==> u in a;
    }
  }

  lemma EnumeratesWithout(b: seq<Uri>, k: nat, uris: set<Uri>)
    requires k < |b| && Enumerates(b, uris)
    ensures Enumerates(b[..k] + b[k + 1..], uris - {b[k]})
  {
    var rest := b[..k] + b[k + 1..];
    assert b == b[..k] + [b[k]] + b[k + 1..];
    forall u ensures u in uris - {b[k]} <==> u in rest {
      assert u in uris <==> u in b;
    }
  }

  lemma StoredWithout(current: map<Uri, seq<Diagnostic>>, b: seq<Uri>, k: nat)
    requires k < |b| && forall u :: u in b ==> u in current
    ensures multiset(Stored(current, b)) == multiset(current[b[k]]) + multiset(Stored(current, b[..k] + b[k + 1..]))
  {
    assert b == b[..k] + ([b[k]] + b[k + 1..]);
    StoredConcat(current, b[..k], [b[k]] + b[k + 1..]);
    StoredConcat(current, [b[k]], b[k + 1..]);
    StoredConcat(current, b[..k], b[k + 1..]);
    assert Stored(current, [b[k]]) == current[b[k]];
  }

  /** The order in which the files are walked does not change what is found. */
  lemma {:induction false} StoredInAnyOrder(current: map<Uri, seq<Diagnostic>>, a: seq<Uri>, b: seq<Uri>,
                                            uris: set<Uri>)
    requires uris <= current.Keys && Enumerates(a, uris) && Enumerates(b, uris)
    requires forall u :: u in a || u in b ==> u in current
    ensures multiset(Stored(current, a)) == multiset(Stored(current, b))
    decreases |a|
  {
    if a == [] {
      if b != [] { EnumeratesTail(b, uris); }
    } else {
      EnumeratesTail(a, uris);
      var k :| 0 <= k < |b| && b[k] == a[0];
      EnumeratesWithout(b, k, uris);
      StoredWithout(current, b, k);
      StoredInAnyOrder(current, a[1..], b[..k] + b[k + 1..], uris - {a[0]});
    }
  }

  lemma CutMultiset<T>(xs: seq<T>, n: nat)
    requires n <= |xs|
    ensures multiset(xs) == multiset(xs[..n]) + multiset(xs[n..])
  {
    assert xs == xs[..n] + xs[n..];
  }

  lemma CutSorted(sorted: seq<Diagnostic>, n: nat)
    requires Sorted(sorted, MoreSevere) && n <= |sorted|
    ensures multiset(sorted) - multiset(sorted[..n]) == multiset(sorted[n..])
    ensures multiset(sorted[..n]) <= multiset(sorted)
    ensures forall kept, left :: kept in sorted[..n] && left in multiset(sorted[n..]) ==> !MoreSevere(left, kept)
  {
    CutMultiset(sorted, n);
    hide MoreSevere;
    forall kept, left | kept in sorted[..n] && left in multiset(sorted[n..]) ensures !MoreSevere(left, kept) {
      var i :| 0 <= i < n && sorted[..n][i] == kept;
      assert left in sorted[n..];
      var j :| 0 <= j < |sorted| - n && sorted[n..][j] == left;
      assert sorted[i] == kept && sorted[n + j] == left;
    }
  }

  /**
   The query returns as many entries as there are, at most 30, the most severe first; nothing it leaves out is more
   severe than anything it returns.
   */
  lemma GetAllKeepsTheWorst(current: map<Uri, seq<Diagnostic>>, order: seq<Uri>)
    requires forall u :: u in order ==> u in current
    ensures var all, r := Stored(current, order), GetAll(current, order);
            && |r| == (if |all| < MAX_TOTAL_DIAGNOSTICS then |all| else MAX_TOTAL_DIAGNOSTICS)
            && Sorted(r, MoreSevere) && multiset(r) <= multiset(all)
            && forall kept, left :: kept in r && left in multiset(all) - multiset(r) ==> !MoreSevere(left, kept)
  {
    hide Stored, Sort, MoreSevere;
    var sorted := Sort(Stored(current, order), MoreSevere);
    SeverityOrder();
    SortSorts(Stored(current, order), MoreSevere);
    var n := |GetAll(current, order)|;
    assert GetAll(current, order) == sorted[..n];
    CutSorted(sorted, n);
  }

  datatype Summary = Summary(errors: nat, warnings: nat, info: nat, hints: nat, filesWithErrors: nat)
  {
    function Total(): nat { errors + warnings + info + hints }
  }

  function CountOf(ds: seq<Diagnostic>, severity: Severity): nat {
    if ds == [] then 0 else (if ds[0].severity == severity then 1 else 0) + CountOf(ds[1..], severity)
  }

  lemma {:induction false} CountConcat(a: seq<Diagnostic>, b: seq<Diagnostic>, severity: Severity)
    ensures CountOf(a + b, severity) == CountOf(a, severity) + CountOf(b, severity)
  {
    if a == [] {
      assert a + b == b;
    } else {
      assert (a + b)[1..] == a[1..] + b;
      CountConcat(a[1..], b, severity);
    }
  }

  lemma {:induction false} CountsAddUp(ds: seq<Diagnostic>)
    ensures CountOf(ds, Error) + CountOf(ds, Warning) + CountOf(ds, Information) + CountOf(ds, Hint) == |ds|
  {
    if ds != [] { CountsAddUp(ds[1..]); }
  }

  function Counted(s: Summary, severity: Severity): Summary {
    match severity
    case Error => s.(errors := s.errors + 1)
    case Warning => s.(warnings := s.warnings + 1)
    case Information => s.(info := s.info + 1)
    case Hint => s.(hints := s.hints + 1)
  }

  /** The counters are those of the list `ds`. */
  ghost predicate Counts(s: Summary, ds: seq<Diagnostic>) {
    && s.errors == CountOf(ds, Error) && s.warnings == CountOf(ds, Warning)
    && s.info == CountOf(ds, Information) && s.hints == CountOf(ds, Hint)
  }

  lemma CountsOneMore(s: Summary, ds: seq<Diagnostic>, d: Diagnostic)
    requires Counts(s, ds)
    ensures Counts(Counted(s, d.severity), ds + [d])
  {
    CountConcat(ds, [d], Error);
    CountConcat(ds, [d], Warning);
    CountConcat(ds, [d], Information);
    CountConcat(ds, [d], Hint);
  }

  predicate HasError(ds: seq<Diagnostic>) { exists i :: 0 <= i < |ds| && ds[i].severity == Error }

  function ErrorFiles(current: map<Uri, seq<Diagnostic>>, order: seq<Uri>): set<Uri>
    requires forall u :: u in order ==> u in current
  {
    set u | u in order && HasError(current[u])
  }

  lemma EnumeratedOnce(order: seq<Uri>, uris: set<Uri>, i: nat)
    requires i < |order| && Enumerates(order, uris)
    ensures order[i] !in order[..i]
  {
  }

  lemma ErrorFilesNext(current: map<Uri, seq<Diagnostic>>, order: seq<Uri>, i: nat)
    requires i < |order| && Enumerates(order, current.Keys) && forall u :: u in order ==> u in current
    ensures |ErrorFiles(current, order[..i + 1])| ==
              |ErrorFiles(current, order[..i])| + if HasError(current[order[i]]) then 1 else 0
  {
    hide HasError, Enumerates;
    var u := order[i];
    EnumeratedOnce(order, current.Keys, i);
    assert order[..i + 1] == order[..i] + [u];
    var before, now := ErrorFiles(current, order[..i]), ErrorFiles(current, order[..i + 1]);
    if HasError(current[u]) {
      assert now == before + {u};
    } else {
      assert now == before;
    }
  }
}

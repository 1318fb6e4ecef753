/** The registry object of cc-lsp/src/diagnostics.rs. */
module Diagnostics {
  import opened Wrappers
  import opened Lru
  import opened StableSort
  import opened DiagnosticsModel
  import M = DiagnosticsModel

  class DiagnosticsRegistry {
    var current: map<Uri, seq<Diagnostic>>
    var delivered: seq<Entry<Uri, set<Key>>>
    /** Whether a callback is registered, and what it has been called with. */
    var listening: bool
    var calls: seq<Delivery>

    ghost function Abs(): State
      reads this
    {
      State(current, delivered, listening, calls)
    }

    ghost predicate Valid()
      reads this
    {
      M.Valid(Abs())
    }

    constructor ()
      ensures Valid() && Abs() == New()
    {
      current, delivered, listening, calls := map[], [], false, [];
    }

    method OnUpdate()
      requires Valid()
      modifies `listening
      ensures Valid() && Abs() == Apply(old(Abs()), OpListen)
    {
      listening := true;
    }

    /** The entries whose key has not been delivered, and the delivered keys with theirs added. */
    static method Deduplicate(entries: seq<Diagnostic>, delivered: set<Key>)
      returns (newEntries: seq<Diagnostic>, fileDelivered: set<Key>)
      ensures newEntries == Fresh(entries, delivered)
      ensures fileDelivered == delivered + KeysOf(newEntries)
    {
      hide Fresh, KeysOf, KeyOf;
      newEntries, fileDelivered := [], delivered;
      var i := 0;
      NothingFresh(delivered);
      assert entries[0..] == entries && delivered + {} == delivered;
      while i < |entries|
        invariant 0 <= i <= |entries|
        invariant newEntries + Fresh(entries[i..], fileDelivered) == Fresh(entries, delivered)
        invariant fileDelivered == delivered + KeysOf(newEntries)
      {
        var key := KeyOf(entries[i]);
        FreshNext(entries, i, fileDelivered);
        if key !in fileDelivered {
          KeysAppend(newEntries, entries[i]);
          Regroup(newEntries, [entries[i]], Fresh(entries[i + 1..], fileDelivered + {key}));
          fileDelivered := fileDelivered + {key};
          newEntries := newEntries + [entries[i]];
        }
        i := i + 1;
      }
      NothingFresh(fileDelivered);
      assert entries[i..] == [];
    }

    method HandlePublishDiagnostics(uri: Uri, diagnostics: seq<Published>)
      requires Valid()
      modifies this
      ensures Valid() && Abs() == Publish(old(Abs()), uri, diagnostics)
    {
      PublishKeeps(Abs(), uri, diagnostics);
      if diagnostics == [] {
        current := current - {uri};
        delivered := Without(delivered, uri);
        return;
      }
      var entries := ConvertAll(uri, diagnostics);
      entries := Sort(entries, MoreSevere);
      entries := Truncate(entries, MAX_DIAGNOSTICS_PER_FILE);
      var newEntries, fileDelivered := Deduplicate(entries, Lookup(delivered, uri).GetOr({}));
      delivered := Evicted(Lru.Insert(delivered, uri, fileDelivered), LRU_CACHE_CAPACITY);
      if newEntries == [] {
        return;
      }
      current := current[uri := newEntries];
      if listening {
        calls := calls + [Delivery(uri, newEntries)];
      }
    }

    method GetForFile(uri: Uri) returns (r: seq<Diagnostic>)
      ensures r == M.GetForFile(Abs(), uri)
    {
      r := if uri in current then current[uri] else [];
    }

    /** `order` is the order in which the map happens to be walked. */
    method GetAll(order: seq<Uri>) returns (r: seq<Diagnostic>)
      requires Enumerates(order, current.Keys)
      ensures r == M.GetAll(current, order)
    {
      var all := [];
      var i := 0;
      while i < |order|
        invariant 0 <= i <= |order|
        invariant all + Stored(current, order[i..]) == Stored(current, order)
      {
        assert order[i..][0] == order[i] && order[i..][1..] == order[i + 1..];
        all := all + current[order[i]];
        i := i + 1;
      }
      assert all == Stored(current, order);
      all := Sort(all, MoreSevere);
      r := Truncate(all, MAX_TOTAL_DIAGNOSTICS);
    }

    method Summarize(order: seq<Uri>) returns (s: Summary)
      requires Enumerates(order, current.Keys)
      ensures Counts(s, Stored(current, order)) && s.Total() == |Stored(current, order)|
      ensures s.filesWithErrors == |set u | u in current && HasError(current[u])|
    {
      assert forall u :: u in order <==> u in current;
      s := Summary(0, 0, 0, 0, 0);
      var i := 0;
      while i < |order|
        invariant 0 <= i <= |order|
        invariant Counts(s, Stored(current, order[..i]))
        invariant s.filesWithErrors == |ErrorFiles(current, order[..i])|
      {
        var entries := current[order[i]];
        if HasError(entries) {
          s := s.(filesWithErrors := s.filesWithErrors + 1);
        }
        s := CountEntries(s, Stored(current, order[..i]), entries);
        StoredNext(current, order, i);
        ErrorFilesNext(current, order, i);
        i := i + 1;
      }
      assert order[..|order|] == order;
      CountsAddUp(Stored(current, order));
      assert ErrorFiles(current, order) == set u | u in current && HasError(current[u]);
    }

    /** Adds the entries of one file to the counters of those before it. */
    static method CountEntries(s: Summary, ghost before: seq<Diagnostic>, entries: seq<Diagnostic>) returns (r: Summary)
      requires Counts(s, before)
      ensures Counts(r, before + entries) && r.filesWithErrors == s.filesWithErrors
    {
      r := s;
      assert before + entries[..0] == before;
      var j := 0;
      while j < |entries|
        invariant 0 <= j <= |entries|
        invariant Counts(r, before + entries[..j]) && r.filesWithErrors == s.filesWithErrors
      {
        CountsOneMore(r, before + entries[..j], entries[j]);
        assert before + entries[..j + 1] == before + entries[..j] + [entries[j]];
        match entries[j].severity {
          case Error => r := r.(errors := r.errors + 1);
          case Warning => r := r.(warnings := r.warnings + 1);
          case Information => r := r.(info := r.info + 1);
          case Hint => r := r.(hints := r.hints + 1);
        }
        j := j + 1;
      }
      assert entries[..|entries|] == entries;
    }

    method ClearAll()
      requires Valid()
      modifies this
      ensures Valid() && Abs() == M.ClearAll(old(Abs()))
    {
      current, delivered := map[], [];
    }
  }
}

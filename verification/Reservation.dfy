/** Reserving a file for the output of a background task (cc-agent/src/task_output.rs). */
module Reservation {
  import opened Wrappers
  import opened Decimal

  const HASH_ATTEMPTS: nat := 32

  /** The short hash of a task identifier in a given attempt: any function at all. */
  type Hash = (string, nat) -> string

  function FullName(id: string, n: nat): string {
    if n == 0 then id + ".output" else id + "-" + Numeral(n) + ".output"
  }

  /** The names a reservation tries, in their order. */
  function Candidate(hash: Hash, id: string, k: nat): string {
    if k < HASH_ATTEMPTS then hash(id, k) + ".output" else FullName(id, k - HASH_ATTEMPTS)
  }

  /** Thirty-two short names, then the identifier itself, and then the identifier with a number. */
  lemma CandidateNames(hash: Hash, id: string, k: nat)
    ensures k < 32 ==> Candidate(hash, id, k) == hash(id, k) + ".output"
    ensures Candidate(hash, id, 32) == id + ".output"
    ensures k > 0 ==> Candidate(hash, id, 32 + k) == id + "-" + Numeral(k) + ".output"
  {
  }

  lemma FullNamesDiffer(id: string, m: nat, n: nat)
    requires FullName(id, m) == FullName(id, n)
    ensures m == n
  {
    hide Numeral;
    assert m > 0 ==> |FullName(id, m)| > |FullName(id, 0)|;
    assert n > 0 ==> |FullName(id, n)| > |FullName(id, 0)|;
    if m > 0 && n > 0 {
      var front := id + "-";
      assert FullName(id, m) == front + (Numeral(m) + ".output") && FullName(id, n) == front + (Numeral(n) + ".output");
      assert FullName(id, m)[|front|..] == Numeral(m) + ".output";
      assert FullName(id, n)[|front|..] == Numeral(n) + ".output";
      NumeralPrefix(m, n, ".output", ".output");
    }
  }

  // ---- one call, nobody else in the directory ----

  datatype Create = Created | AlreadyExists | Failed

  /** A name that makes the loop go on. */
  predicate Taken(files: set<string>, fails: string -> bool, name: string) { !fails(name) && name in files }

  ghost predicate AllTaken(files: set<string>, hash: Hash, id: string, fails: string -> bool, k: nat) {
    forall j: nat :: j < k ==> Taken(files, fails, Candidate(hash, id, j))
  }

  /** The first candidate that is free or cannot be opened. */
  ghost predicate StopsAt(files: set<string>, hash: Hash, id: string, fails: string -> bool, k: nat) {
    AllTaken(files, hash, id, fails, k) && !Taken(files, fails, Candidate(hash, id, k))
  }

  /** A name that cannot be opened is not reserved: a short one gives way to the identifier, a long one is returned. */
  function Chosen(hash: Hash, id: string, fails: string -> bool, k: nat): string {
    if k < HASH_ATTEMPTS && fails(Candidate(hash, id, k)) then FullName(id, 0) else Candidate(hash, id, k)
  }

  ghost function FullNames(id: string, n: nat): set<string> {
    if n == 0 then {} else FullNames(id, n - 1) + {FullName(id, n - 1)}
  }

  lemma {:induction false} FullNamesAre(id: string, n: nat)
    ensures |FullNames(id, n)| == n
    ensures forall x :: x in FullNames(id, n) ==> exists j: nat :: j < n && x == FullName(id, j)
  {
    hide FullName;
    if n > 0 {
      FullNamesAre(id, n - 1);
      if FullName(id, n - 1) in FullNames(id, n - 1) {
        var j: nat :| j < n - 1 && FullName(id, n - 1) == FullName(id, j);
        FullNamesDiffer(id, j, n - 1);
      }
    }
  }

  lemma SubsetSize<T>(a: set<T>, b: set<T>)
    requires a <= b
    ensures |a| <= |b|
    decreases b
  {
    if b != {} {
      var x :| x in b;
      SubsetSize(a - {x}, b - {x});
    }
  }

  /** However the hashes collide, a directory has room: its size bounds the number of attempts. */
  lemma AttemptsBounded(files: set<string>, hash: Hash, id: string, fails: string -> bool, k: nat)
    requires AllTaken(files, hash, id, fails, k)
    ensures k <= HASH_ATTEMPTS + |files|
  {
    if k > HASH_ATTEMPTS {
      var n := k - HASH_ATTEMPTS;
      FullNamesAre(id, n);
      forall x | x in FullNames(id, n) ensures x in files {
        var j: nat :| j < n && x == FullName(id, j);
        assert Taken(files, fails, Candidate(hash, id, HASH_ATTEMPTS + j));
      }
      SubsetSize(FullNames(id, n), files);
    }
  }

  class OutputDir {
    var files: set<string>

    constructor (initial: set<string>)
      ensures files == initial
    {
      files := initial;
    }

    /** Creates a file only if there is none of that name. */
    method CreateNew(name: string, fails: string -> bool) returns (r: Create)
      modifies this
      ensures r == if fails(name) then Failed else if name in old(files) then AlreadyExists else Created
      ensures files == if r.Created? then old(files) + {name} else old(files)
    {
      if fails(name) {
        return Failed;
      }
      if name in files {
        return AlreadyExists;
      }
      files := files + {name};
      r := Created;
    }

    method Reserve(id: string, hash: Hash, dirFails: bool, fails: string -> bool) returns (name: string)
      modifies this
      ensures dirFails ==> name == FullName(id, 0) && files == old(files)
      ensures !dirFails ==>
                exists k: nat :: StopsAt(old(files), hash, id, fails, k) && name == Chosen(hash, id, fails, k)
                  && files == if fails(Candidate(hash, id, k)) then old(files) else old(files) + {name}
      ensures !dirFails && (forall x :: !fails(x)) ==> name !in old(files) && files == old(files) + {name}
    {
      var fallback := FullName(id, 0);
      if dirFails {
        return fallback;
      }
      for attempt := 0 to HASH_ATTEMPTS
        invariant files == old(files) && AllTaken(files, hash, id, fails, attempt)
      {
        var path := hash(id, attempt) + ".output";
        assert path == Candidate(hash, id, attempt);
        var created := CreateNew(path, fails);
        match created {
          case Created =>
            assert StopsAt(old(files), hash, id, fails, attempt);
            return path;
          case AlreadyExists =>
          case Failed =>
            assert StopsAt(old(files), hash, id, fails, attempt);
            return fallback;
        }
      }
      var attempt := 0;
      while true
        invariant files == old(files) && AllTaken(files, hash, id, fails, HASH_ATTEMPTS + attempt)
        decreases |files| - attempt
      {
        var path := FullName(id, attempt);
        assert path == Candidate(hash, id, HASH_ATTEMPTS + attempt);
        AttemptsBounded(files, hash, id, fails, HASH_ATTEMPTS + attempt);
        var created := CreateNew(path, fails);
        match created {
          case AlreadyExists =>
          case _ =>
            assert StopsAt(old(files), hash, id, fails, HASH_ATTEMPTS + attempt);
            return path;
        }
        attempt := attempt + 1;
        AttemptsBounded(files, hash, id, fails, HASH_ATTEMPTS + attempt);
      }
    }
  }

  // ---- many calls at a time: every attempt is one atomic step on the directory ----

  datatype Call = Call(id: string, attempt: nat, path: Option<string>, cleaned: bool)
  {
    predicate Holds() { path.Some? && !cleaned }
  }

  datatype State = State(files: set<string>, calls: seq<Call>)

  /** A call starts, a call tries its next name, somebody else creates a file, or a task's file is removed. */
  datatype Event = Start(id: string) | Try(call: nat) | Foreign(name: string) | Cleanup(call: nat)

  function TryNext(hash: Hash, s: State, i: nat): State
    requires i < |s.calls|
  {
    var c := s.calls[i];
    var name := Candidate(hash, c.id, c.attempt);
    if c.path.Some? then s
    else if name in s.files then s.(calls := s.calls[i := c.(attempt := c.attempt + 1)])
    else State(s.files + {name}, s.calls[i := c.(path := Some(name))])
  }

  function Step(hash: Hash, s: State, e: Event): State {
    match e
    case Start(id) => s.(calls := s.calls + [Call(id, 0, None, false)])
    case Try(i) => if i < |s.calls| then TryNext(hash, s, i) else s
    case Foreign(name) => s.(files := s.files + {name})
    case Cleanup(i) =>
      if i < |s.calls| && s.calls[i].Holds()
      then State(s.files - {s.calls[i].path.value}, s.calls[i := s.calls[i].(cleaned := true)])
      else s
  }

  function Run(hash: Hash, s: State, es: seq<Event>): State {
    if es == [] then s else Step(hash, Run(hash, s, es[..|es| - 1]), es[|es| - 1])
  }

  /** Whoever holds a path has its file to itself. */
  ghost predicate Exclusive(hash: Hash, s: State) {
    && (forall i :: 0 <= i < |s.calls| && s.calls[i].Holds() ==> s.calls[i].path.value in s.files)
    && (forall i, j :: 0 <= i < j < |s.calls| && s.calls[i].Holds() && s.calls[j].Holds() ==>
          s.calls[i].path != s.calls[j].path)
    && (forall i :: 0 <= i < |s.calls| && s.calls[i].path.Some? ==>
          s.calls[i].path.value == Candidate(hash, s.calls[i].id, s.calls[i].attempt))
  }

  lemma TryKeeps(hash: Hash, s: State, i: nat)
    requires Exclusive(hash, s) && i < |s.calls|
    ensures Exclusive(hash, TryNext(hash, s, i))
    ensures var t := TryNext(hash, s, i);
            t != s && t.calls[i].path.Some? ==> t.calls[i].path.value !in s.files && t.calls[i].path.value in t.files
  {
    hide Candidate;
  }

  lemma CleanupKeeps(hash: Hash, s: State, i: nat)
    requires Exclusive(hash, s)
    ensures Exclusive(hash, Step(hash, s, Cleanup(i)))
  {
    hide Candidate;
  }

  lemma StepKeeps(hash: Hash, s: State, e: Event)
    requires Exclusive(hash, s)
    ensures Exclusive(hash, Step(hash, s, e))
  {
    match e
    case Start(id) => hide Candidate;
    case Try(i) => if i < |s.calls| { TryKeeps(hash, s, i); }
    case Foreign(name) => hide Candidate;
    case Cleanup(i) => CleanupKeeps(hash, s, i);
  }

  /** However the attempts interleave and the hashes collide, two tasks never hold the same file. */
  lemma {:induction false} EveryRun(hash: Hash, files: set<string>, es: seq<Event>)
    ensures Exclusive(hash, Run(hash, State(files, []), es))
  {
    if es != [] {
      EveryRun(hash, files, es[..|es| - 1]);
      StepKeeps(hash, Run(hash, State(files, []), es[..|es| - 1]), es[|es| - 1]);
    }
  }

  /** Every file was there at the start, was created by somebody else, or is held; and none of the first is removed. */
  ghost predicate NoLeak(files: set<string>, es: seq<Event>, s: State) {
    && files <= s.files
    && forall x :: x in s.files ==>
         || x in files
         || (exists k :: 0 <= k < |es| && es[k] == Foreign(x))
         || (exists i :: 0 <= i < |s.calls| && s.calls[i].Holds() && s.calls[i].path == Some(x))
  }

  /** Nobody holds a file that was there at the start, and nothing is cleaned up before it is reserved. */
  ghost predicate NoneTaken(files: set<string>, s: State) {
    forall i :: 0 <= i < |s.calls| ==>
      if s.calls[i].path.Some? then s.calls[i].path.value !in files else !s.calls[i].cleaned
  }

  lemma NoLeakStep(hash: Hash, files: set<string>, es: seq<Event>, s: State, e: Event)
    requires NoLeak(files, es, s) && NoneTaken(files, s)
    ensures NoLeak(files, es + [e], Step(hash, s, e)) && NoneTaken(files, Step(hash, s, e))
  {
    hide Candidate;
    var s' := Step(hash, s, e);
    assert forall i :: 0 <= i < |s.calls| ==> s.calls[i].Holds() ==>
                         s'.calls[i].path == s.calls[i].path && (s'.calls[i].Holds() || e == Cleanup(i));
    forall x | x in s'.files
      ensures x in files || (exists k :: 0 <= k < |es + [e]| && (es + [e])[k] == Foreign(x))
              || (exists i :: 0 <= i < |s'.calls| && s'.calls[i].Holds() && s'.calls[i].path == Some(x))
    {
      if x in s.files && x !in files {
        if k :| 0 <= k < |es| && es[k] == Foreign(x) {
          assert (es + [e])[k] == Foreign(x);
        } else {
          var i :| 0 <= i < |s.calls| && s.calls[i].Holds() && s.calls[i].path == Some(x);
          assert s'.calls[i].Holds() && s'.calls[i].path == Some(x);
        }
      } else if x !in files {
        if e.Foreign? {
          assert (es + [e])[|es|] == Foreign(x);
        } else {
          assert e.Try? && s'.calls[e.call].Holds() && s'.calls[e.call].path == Some(x);
        }
      }
    }
  }

  /** However the attempts interleave, cleaning up removes what was reserved and nothing else is left or lost. */
  lemma {:induction false} NothingLeaks(hash: Hash, files: set<string>, es: seq<Event>)
    ensures NoLeak(files, es, Run(hash, State(files, []), es)) && NoneTaken(files, Run(hash, State(files, []), es))
  {
    hide Step, NoLeak, NoneTaken;
    if es == [] {
      NothingYet(files);
    } else {
      var n := |es| - 1;
      NothingLeaks(hash, files, es[..n]);
      NoLeakStep(hash, files, es[..n], Run(hash, State(files, []), es[..n]), es[n]);
      assert es == es[..n] + [es[n]];
    }
  }

  lemma NothingYet(files: set<string>)
    ensures NoLeak(files, [], State(files, [])) && NoneTaken(files, State(files, []))
  {
  }

  function Tries(i: nat, n: nat): seq<Event> { seq(n, _ => Try(i)) }

  /** A call that is left alone takes the candidate at which the loop stops. */
  lemma {:induction false} AloneStopsAt(hash: Hash, s: State, i: nat, k: nat, n: nat)
    requires i < |s.calls| && s.calls[i].attempt == 0 && s.calls[i].path.None?
    requires StopsAt(s.files, hash, s.calls[i].id, _ => false, k) && n <= k + 1
    ensures var id := s.calls[i].id;
            Run(hash, s, Tries(i, n)) ==
              if n <= k then s.(calls := s.calls[i := s.calls[i].(attempt := n)])
              else State(s.files + {Candidate(hash, id, k)},
                         s.calls[i := s.calls[i].(attempt := k, path := Some(Candidate(hash, id, k)))])
  {
    hide Candidate;
    if n > 0 {
      assert Tries(i, n)[..n - 1] == Tries(i, n - 1);
      AloneStopsAt(hash, s, i, k, n - 1);
      assert n <= k ==> Taken(s.files, _ => false, Candidate(hash, s.calls[i].id, n - 1));
    }
  }
}

/** The sub-agent model cache (cc-acp/src/session/agent_pool.rs) under every interleaving of its callers. */
module AgentPool {
  import opened Wrappers

  type Fingerprint = string

  /** Model instances, numbered in the order of their creation. */
  type Model = nat

  /** An entry that is already there stays. */
  function OrInsert(cache: map<Fingerprint, Model>, f: Fingerprint, own: Model): (r: map<Fingerprint, Model>)
    ensures f in r && forall g :: g in cache ==> g in r && r[g] == cache[g]
  {
    if f in cache then cache else cache[f := own]
  }

  /**
   Where a call of `get_or_create_subagent_llm` is. `epoch` is bookkeeping: how many invalidations had happened when the
   call committed, by finding the entry or by `or_insert`.
   */
  datatype Phase =
    | Looking
    | Creating
    | Inserting(own: Model)
    | Done(model: Model, epoch: nat)

  datatype Call = Call(fingerprint: Fingerprint, phase: Phase)

  datatype State = State(cache: map<Fingerprint, Model>, calls: seq<Call>, created: nat, epoch: nat)

  /** What a thread does under the lock, or outside of it when it creates a model. */
  datatype Step = Begin(fingerprint: Fingerprint) | Look(c: nat) | Create(c: nat) | Insert(c: nat) | Invalidate

  function New(): State { State(map[], [], 0, 0) }

  function SetPhase(s: State, c: nat, p: Phase): State
    requires c < |s.calls|
  {
    s.(calls := s.calls[c := s.calls[c].(phase := p)])
  }

  function Apply(s: State, step: Step): State {
    match step
    case Begin(f) => s.(calls := s.calls + [Call(f, Looking)])
    case Look(c) =>
      if c >= |s.calls| || !s.calls[c].phase.Looking? then s
      else if s.calls[c].fingerprint in s.cache then SetPhase(s, c, Done(s.cache[s.calls[c].fingerprint], s.epoch))
      else SetPhase(s, c, Creating)
    case Create(c) =>
      if c >= |s.calls| || !s.calls[c].phase.Creating? then s
      else SetPhase(s, c, Inserting(s.created)).(created := s.created + 1)
    case Insert(c) =>
      if c >= |s.calls| || !s.calls[c].phase.Inserting? then s else
      var f := s.calls[c].fingerprint;
      var cache := OrInsert(s.cache, f, s.calls[c].phase.own);
      SetPhase(s, c, Done(cache[f], s.epoch)).(cache := cache)
    case Invalidate => s.(cache := map[], epoch := s.epoch + 1)
  }

  function Run(steps: seq<Step>): State {
    if steps == [] then New() else Apply(Run(steps[..|steps| - 1]), steps[|steps| - 1])
  }

  // ---- the pool itself ----

  /** The steps of one call in a row; those that do not apply change nothing. */
  function WholeCall(s: State, f: Fingerprint): State {
    var c := |s.calls|;
    Apply(Apply(Apply(Apply(s, Begin(f)), Look(c)), Create(c)), Insert(c))
  }

  datatype Instances = Instances(compact: Model, classifier: Model, fingerprint: Fingerprint)

  /** The pool itself; each method is what happens while its lock is held. */
  class Pool {
    var cachedLlm: Option<Instances>
    var fingerprint: Fingerprint
    var subagentCache: map<Fingerprint, Model>

    ghost predicate Valid()
      reads this
    {
      fingerprint == if cachedLlm.Some? then cachedLlm.value.fingerprint else ""
    }

    constructor ()
      ensures Valid() && cachedLlm.None? && subagentCache == map[]
    {
      cachedLlm, fingerprint, subagentCache := None, "", map[];
    }

    /** The instances may be used again just if they were stored for the same provider. */
    method HasValidCache(provider: Fingerprint) returns (b: bool)
      requires Valid()
      ensures b <==> cachedLlm.Some? && cachedLlm.value.fingerprint == provider
    {
      b := cachedLlm.Some? && fingerprint == provider;
    }

    method StoreLlm(instances: Instances)
      requires Valid()
      modifies this
      ensures Valid() && cachedLlm == Some(instances) && subagentCache == old(subagentCache)
    {
      fingerprint := instances.fingerprint;
      cachedLlm := Some(instances);
    }

    /** The pool's cache is that of the state machine. */
    ghost predicate Mirrors(s: State)
      reads this
    {
      subagentCache == s.cache
    }

    /** The step `Invalidate`. */
    method Invalidate(ghost s: State)
      requires Mirrors(s)
      modifies this
      ensures Valid() && cachedLlm.None? && Mirrors(Apply(s, Step.Invalidate))
    {
      cachedLlm := None;
      fingerprint := "";
      subagentCache := map[];
    }

    /** The step `Look` of call `c`: a hit commits the call, a miss sends it on to create an instance. */
    method LookUp(f: Fingerprint, ghost s: State, ghost c: nat) returns (r: Option<Model>)
      requires Mirrors(s) && c < |s.calls| && s.calls[c] == Call(f, Looking)
      ensures var s' := Apply(s, Look(c));
              Mirrors(s') && s'.calls[c].phase == if r.Some? then Done(r.value, s.epoch) else Creating
    {
      r := if f in subagentCache then Some(subagentCache[f]) else None;
    }

    /** The step `Insert` of call `c`, which commits it to the instance in the cache. */
    method WriteBack(f: Fingerprint, own: Model, ghost s: State, ghost c: nat) returns (m: Model)
      requires Valid() && Mirrors(s) && c < |s.calls| && s.calls[c] == Call(f, Inserting(own))
      modifies this
      ensures Valid() && cachedLlm == old(cachedLlm)
      ensures var s' := Apply(s, Insert(c)); Mirrors(s') && s'.calls[c].phase == Done(m, s.epoch)
    {
      if f !in subagentCache {
        subagentCache := subagentCache[f := own];
      }
      m := subagentCache[f];
    }

    /** A whole call with nobody else at the pool; `created` is what `create` would return. */
    method GetOrCreate(f: Fingerprint, created: Model, ghost s: State) returns (m: Model)
      requires Valid() && Mirrors(s) && created == s.created
      modifies this
      ensures Valid() && cachedLlm == old(cachedLlm)
      ensures var s' := WholeCall(s, f); Mirrors(s') && s'.calls[|s.calls|] == Call(f, Done(m, s.epoch))
    {
      ghost var c, s1 := |s.calls|, Apply(s, Begin(f));
      var cached := LookUp(f, s1, c);
      ghost var s2 := Apply(s1, Look(c));
      if cached.Some? {
        return cached.value;
      }
      ghost var s3 := Apply(s2, Create(c));
      m := WriteBack(f, created, s3, c);
    }
  }

  // ---- every interleaving ----

  ghost predicate Agree(a: Call, b: Call) {
    a.phase.Done? && b.phase.Done? ==>
      (a.phase.model == b.phase.model <==> a.fingerprint == b.fingerprint && a.phase.epoch == b.phase.epoch)
  }

  /** Every instance is held for one fingerprint: by the call that is about to insert it, or by those given it. */
  ghost predicate Inv(s: State) { Separate(s) && Current(s) && AllAgree(s) }

  /** Every instance exists, and none of those that are about to be inserted is known elsewhere. */
  ghost predicate Separate(s: State) { Known(s) && Apart(s) }

  /** What was created or given out exists, under one fingerprint in the cache, and in one call that is to insert it. */
  ghost predicate Known(s: State) {
    && (forall i :: 0 <= i < |s.calls| && s.calls[i].phase.Inserting? ==> s.calls[i].phase.own < s.created)
    && (forall i :: 0 <= i < |s.calls| && s.calls[i].phase.Done? ==>
          s.calls[i].phase.model < s.created && s.calls[i].phase.epoch <= s.epoch)
    && (forall f :: f in s.cache ==> s.cache[f] < s.created)
    && (forall f, g :: f in s.cache && g in s.cache && s.cache[f] == s.cache[g] ==> f == g)
    && (forall i, j :: 0 <= i < j < |s.calls| && s.calls[i].phase.Inserting? && s.calls[j].phase.Inserting? ==>
          s.calls[i].phase.own != s.calls[j].phase.own)
  }

  /** An instance about to be inserted is nobody else's, and one given out before an invalidation is not cached. */
  ghost predicate Apart(s: State) {
    && (forall i, f :: 0 <= i < |s.calls| && s.calls[i].phase.Inserting? && f in s.cache ==>
          s.calls[i].phase.own != s.cache[f])
    && (forall i, j :: 0 <= i < |s.calls| && 0 <= j < |s.calls|
                       && s.calls[i].phase.Inserting? && s.calls[j].phase.Done? ==>
          s.calls[i].phase.own != s.calls[j].phase.model)
    && (forall i, f :: 0 <= i < |s.calls| && s.calls[i].phase.Done? && s.calls[i].phase.epoch < s.epoch
                       && f in s.cache ==>
          s.calls[i].phase.model != s.cache[f])
  }

  /** What was given out since the last invalidation is in the cache. */
  ghost predicate Current(s: State) {
    forall i :: 0 <= i < |s.calls| && s.calls[i].phase.Done? && s.calls[i].phase.epoch == s.epoch ==>
      s.calls[i].fingerprint in s.cache && s.cache[s.calls[i].fingerprint] == s.calls[i].phase.model
  }

  ghost predicate AllAgree(s: State) {
    forall i, j :: 0 <= i < |s.calls| && 0 <= j < |s.calls| ==> Agree(s.calls[i], s.calls[j])
  }

  /** A call commits to the cached instance of its fingerprint. */
  lemma CommitKeeps(s: State, c: nat, cache: map<Fingerprint, Model>)
    requires Inv(s) && c < |s.calls| && !s.calls[c].phase.Done?
    requires var f := s.calls[c].fingerprint;
             (cache == s.cache && f in cache)
             || (s.calls[c].phase.Inserting? && f !in s.cache && cache == s.cache[f := s.calls[c].phase.own])
    ensures Inv(SetPhase(s, c, Done(cache[s.calls[c].fingerprint], s.epoch)).(cache := cache))
  {
    CommitSeparate(s, c, cache);
    CommitCurrent(s, c, cache);
    EarlierDiffer(s, c, cache);
    CommitAgrees(s, c, cache);
  }

  lemma CommitSeparate(s: State, c: nat, cache: map<Fingerprint, Model>)
    requires Separate(s) && c < |s.calls| && !s.calls[c].phase.Done?
    requires var f := s.calls[c].fingerprint;
             (cache == s.cache && f in cache)
             || (s.calls[c].phase.Inserting? && f !in s.cache && cache == s.cache[f := s.calls[c].phase.own])
    ensures Separate(SetPhase(s, c, Done(cache[s.calls[c].fingerprint], s.epoch)).(cache := cache))
  {
    var s' := SetPhase(s, c, Done(cache[s.calls[c].fingerprint], s.epoch)).(cache := cache);
    assert Known(s') by { hide Apart; }
    assert Apart(s') by { CommitApart(s, c, cache); }
  }

  lemma CommitApart(s: State, c: nat, cache: map<Fingerprint, Model>)
    requires Separate(s) && c < |s.calls| && !s.calls[c].phase.Done?
    requires var f := s.calls[c].fingerprint;
             (cache == s.cache && f in cache)
             || (s.calls[c].phase.Inserting? && f !in s.cache && cache == s.cache[f := s.calls[c].phase.own])
    ensures Apart(SetPhase(s, c, Done(cache[s.calls[c].fingerprint], s.epoch)).(cache := cache))
  {
    var s' := SetPhase(s, c, Done(cache[s.calls[c].fingerprint], s.epoch)).(cache := cache);
    assert forall i :: 0 <= i < |s.calls| && i != c ==> s'.calls[i] == s.calls[i];
  }

  lemma EarlierDiffer(s: State, c: nat, cache: map<Fingerprint, Model>)
    requires Separate(s) && c < |s.calls| && !s.calls[c].phase.Done?
    requires var f := s.calls[c].fingerprint;
             (cache == s.cache && f in cache)
             || (s.calls[c].phase.Inserting? && f !in s.cache && cache == s.cache[f := s.calls[c].phase.own])
    ensures forall i, f :: 0 <= i < |s.calls| && i != c && s.calls[i].phase.Done? && f in cache ==>
              s.calls[i].phase.epoch == s.epoch
              || (s.calls[i].phase.epoch < s.epoch && s.calls[i].phase.model != cache[f])
  {
  }

  lemma CommitCurrent(s: State, c: nat, cache: map<Fingerprint, Model>)
    requires Current(s) && c < |s.calls| && s.calls[c].fingerprint in cache
    requires forall f :: f in s.cache ==> f in cache && cache[f] == s.cache[f]
    ensures Current(SetPhase(s, c, Done(cache[s.calls[c].fingerprint], s.epoch)).(cache := cache))
  {
  }

  /**
   A committed call agrees with the others: those of its epoch have what is in the cache, and those of earlier epochs
   have instances that are not.
   */
  lemma CommitAgrees(s: State, c: nat, cache: map<Fingerprint, Model>)
    requires AllAgree(s) && Current(s) && c < |s.calls| && s.calls[c].fingerprint in cache
    requires forall f, g :: f in cache && g in cache && cache[f] == cache[g] ==> f == g
    requires forall f :: f in s.cache ==> f in cache && cache[f] == s.cache[f]
    requires forall i, f :: 0 <= i < |s.calls| && i != c && s.calls[i].phase.Done? && f in cache ==>
               s.calls[i].phase.epoch == s.epoch
               || (s.calls[i].phase.epoch < s.epoch && s.calls[i].phase.model != cache[f])
    ensures AllAgree(SetPhase(s, c, Done(cache[s.calls[c].fingerprint], s.epoch)).(cache := cache))
  {
    var s' := SetPhase(s, c, Done(cache[s.calls[c].fingerprint], s.epoch)).(cache := cache);
    forall i, j | 0 <= i < |s.calls| && 0 <= j < |s.calls| ensures Agree(s'.calls[i], s'.calls[j]) {
      assert i != c && j != c ==> Agree(s.calls[i], s.calls[j]);
    }
  }

  /** A call that misses goes on without committing. */
  lemma MissKeeps(s: State, c: nat)
    requires Inv(s) && c < |s.calls| && !s.calls[c].phase.Done?
    ensures Inv(SetPhase(s, c, Creating))
  {
    var s' := SetPhase(s, c, Creating);
    assert forall i :: 0 <= i < |s.calls| && i != c ==> s'.calls[i] == s.calls[i];
  }

  /** A call that has created an instance is the only one that knows it. */
  lemma CreateKeeps(s: State, c: nat)
    requires Inv(s) && c < |s.calls| && !s.calls[c].phase.Done?
    ensures Inv(SetPhase(s, c, Inserting(s.created)).(created := s.created + 1))
  {
    var s' := SetPhase(s, c, Inserting(s.created)).(created := s.created + 1);
    assert forall i :: 0 <= i < |s.calls| && i != c ==> s'.calls[i] == s.calls[i];
    forall i, j | 0 <= i < |s.calls| && 0 <= j < |s.calls| ensures Agree(s'.calls[i], s'.calls[j]) {
      assert i != c && j != c ==> Agree(s.calls[i], s.calls[j]);
    }
  }

  lemma BeginnerAgrees(a: Call, b: Call)
    ensures !a.phase.Done? || !b.phase.Done? ==> Agree(a, b)
  {
  }

  lemma BeginKeeps(s: State, f: Fingerprint)
    requires Inv(s)
    ensures Inv(Apply(s, Begin(f)))
  {
    hide Agree;
    var s' := Apply(s, Begin(f));
    forall i, j | 0 <= i < |s'.calls| && 0 <= j < |s'.calls| ensures Agree(s'.calls[i], s'.calls[j]) {
      BeginnerAgrees(s'.calls[i], s'.calls[j]);
    }
    assert AllAgree(s');
    hide AllAgree;
    assert forall i :: 0 <= i < |s'.calls| && !s'.calls[i].phase.Looking? ==>
                         i < |s.calls| && s'.calls[i] == s.calls[i];
  }

  lemma StepKeeps(s: State, step: Step)
    requires Inv(s)
    ensures Inv(Apply(s, step))
  {
    hide Inv;
    match step
    case Begin(f) => BeginKeeps(s, f);
    case Look(c) =>
      if c < |s.calls| && s.calls[c].phase.Looking? {
        MissKeeps(s, c);
        if s.calls[c].fingerprint in s.cache {
          CommitKeeps(s, c, s.cache);
        }
      }
    case Create(c) => if c < |s.calls| && s.calls[c].phase.Creating? { CreateKeeps(s, c); }
    case Insert(c) =>
      if c < |s.calls| && s.calls[c].phase.Inserting? {
        var f := s.calls[c].fingerprint;
        CommitKeeps(s, c, OrInsert(s.cache, f, s.calls[c].phase.own));
      }
    case Invalidate => InvalidateKeeps(s);
  }

  lemma InvalidateKeeps(s: State)
    requires Inv(s)
    ensures Inv(Apply(s, Invalidate))
  {
  }

  lemma {:induction false} RunKeeps(steps: seq<Step>)
    ensures Inv(Run(steps))
  {
    if steps != [] {
      RunKeeps(steps[..|steps| - 1]);
      StepKeeps(Run(steps[..|steps| - 1]), steps[|steps| - 1]);
    }
  }

  /**
   A call that is left alone takes the cached instance and creates none, or else creates exactly one and caches it. No
   other fingerprint is touched.
   */
  lemma AloneCreatesAtMostOne(s: State, f: Fingerprint)
    ensures var s', c := WholeCall(s, f), |s.calls|;
            && |s'.calls| == c + 1 && s'.calls[..c] == s.calls && s'.epoch == s.epoch
            && s'.calls[c].fingerprint == f && s'.calls[c].phase.Done? && s'.calls[c].phase.epoch == s.epoch
            && s'.calls[c].phase.model == (if f in s.cache then s.cache[f] else s.created)
            && s'.created == s.created + (if f in s.cache then 0 else 1)
            && s'.cache == s.cache[f := s'.calls[c].phase.model]
  {
    var s1 := Apply(s, Begin(f));
    var s2 := Apply(s1, Look(|s.calls|));
    assert f !in s.cache ==> s2.calls[|s.calls|] == Call(f, Creating);
  }

  /**
   In every interleaving: two calls were given the same instance just if they asked for the same fingerprint and
   committed between the same two invalidations; and since the last invalidation it is the cached one.
   */
  lemma SameEpochSameModel(steps: seq<Step>, i: nat, j: nat)
    requires i < |Run(steps).calls| && j < |Run(steps).calls|
    requires Run(steps).calls[i].phase.Done? && Run(steps).calls[j].phase.Done?
    ensures var s := Run(steps); var a, b := s.calls[i], s.calls[j];
            && (a.phase.model == b.phase.model <==> a.fingerprint == b.fingerprint && a.phase.epoch == b.phase.epoch)
            && (a.phase.epoch == s.epoch ==> a.fingerprint in s.cache && s.cache[a.fingerprint] == a.phase.model)
  {
    RunKeeps(steps);
    assert Agree(Run(steps).calls[i], Run(steps).calls[j]);
  }
}

/**
  * Every interleaving of the shared cache. One step is one lock region: the store table sits behind a
  * read-write lock, each location behind its own mutex, and a call that found a location keeps a
  * reference to it after the table lock is gone, so locations may be orphaned while still in use.
  */
module CacheInterleavings {
  import opened Common
  import opened Weights
  import opened CacheStore
  import CacheRuns

  /**
    * A call in flight, between two of its lock regions. `floor` records the highest generation whose
    * advance had returned when the call began.
    */
  datatype Thread =
    | Advancing(generation: u64)
    | Creating(op: Op, cfg: CacheConfig, floor: u64)
    | Holding(op: Op, cfg: CacheConfig, store: nat, floor: u64)

  /**
    * `retired` is the highest generation whose advance has returned; `puts` is the last put made into each
    * store, by key.
    */
  datatype Shared = Shared(
    generation: u64, locations: map<u64, nat>, stores: map<nat, Store>, nextId: nat, threads: map<nat, Thread>,
    retired: u64, puts: map<(nat, CacheKey), CachedResponse>)

  datatype Step =
    | BeginAdvance(tid: nat, generation: u64)
    | FinishAdvance(tid: nat)
    | BeginUse(tid: nat, op: Op, cfg: CacheConfig)
    | Create(tid: nat, now: nat, limit: u64)
    | Operate(tid: nat, now: nat, limit: u64, after: Store, answer: Answer)
    | Invalidate(routeId: u64)
    | SweepOne(store: nat, now: nat)

  function Max(a: u64, b: u64): u64 { if a >= b then a else b }

  /** Is the step possible here? */
  ghost predicate Enabled(s: Shared, step: Step) {
    match step
    case BeginAdvance(tid, _) => tid !in s.threads
    case FinishAdvance(tid) => tid in s.threads && s.threads[tid].Advancing?
    case BeginUse(tid, _, _) => tid !in s.threads
    case Create(tid, _, _) => tid in s.threads && s.threads[tid].Creating?
    case Operate(tid, now, limit, after, answer) =>
      && tid in s.threads && s.threads[tid].Holding? && s.threads[tid].store in s.stores
      && StoreStep(s.stores[s.threads[tid].store], Call(s.threads[tid].op, s.threads[tid].cfg, now, limit), after,
                   answer)
    case Invalidate(_) => true
    case SweepOne(id, _) => id in s.stores
  }

  function AfterBeginAdvance(s: Shared, tid: nat, g: u64): Shared {
    if g <= s.generation then s.(retired := Max(s.retired, g))
    else s.(threads := s.threads[tid := Advancing(g)])
  }

  function AfterFinishAdvance(s: Shared, tid: nat, g: u64): Shared {
    var done := s.(threads := s.threads - {tid}, retired := Max(s.retired, g));
    if g > s.generation then done.(generation := g, locations := map[]) else done
  }

  function AfterBeginUse(s: Shared, tid: nat, op: Op, cfg: CacheConfig): Shared {
    if !cfg.enabled || op.key.generation < s.generation then s
    else if op.key.routeId in s.locations then
      s.(threads := s.threads[tid := Holding(op, cfg, s.locations[op.key.routeId], s.retired)])
    else if op.Get? || op.GetStale? then s
    else s.(threads := s.threads[tid := Creating(op, cfg, s.retired)])
  }

  ghost function AfterCreate(s: Shared, tid: nat, t: Thread, now: nat, limit: u64): Shared
    requires t.Creating?
  {
    var r := t.op.key.routeId;
    if t.op.key.generation < s.generation then s.(threads := s.threads - {tid})
    else if r in s.locations then s.(threads := s.threads[tid := Holding(t.op, t.cfg, s.locations[r], t.floor)])
    else WithNewStore(s, tid, t, NewStore(t.cfg, limit, now))
  }

  function AfterOperate(s: Shared, tid: nat, t: Thread, after: Store): Shared
    requires t.Holding?
  {
    s.(threads := s.threads - {tid}, stores := s.stores[t.store := after],
    puts := if t.op.Put? then s.puts[(t.store, t.op.key) := t.op.response] else s.puts)
  }

  ghost function After(s: Shared, step: Step): Shared
    requires Enabled(s, step)
  {
    match step
    case BeginAdvance(tid, g) => AfterBeginAdvance(s, tid, g)
    case FinishAdvance(tid) => AfterFinishAdvance(s, tid, s.threads[tid].generation)
    case BeginUse(tid, op, cfg) => AfterBeginUse(s, tid, op, cfg)
    case Create(tid, now, limit) => AfterCreate(s, tid, s.threads[tid], now, limit)
    case Operate(tid, _, _, after, _) => AfterOperate(s, tid, s.threads[tid], after)
    case Invalidate(r) => s.(locations := s.locations - {r})
    case SweepOne(id, now) => s.(stores := s.stores[id := Swept(s.stores[id], now)])
  }

  const Initial := Shared(0, map[], map[], 0, map[], 0, map[])

  ghost predicate StepAt(states: seq<Shared>, steps: seq<Step>, i: nat)
    requires i < |steps| < |states|
  {
    Enabled(states[i], steps[i]) && states[i + 1] == After(states[i], steps[i])
  }

  ghost predicate Run(states: seq<Shared>, steps: seq<Step>) {
    && |states| == |steps| + 1 && states[0] == Initial
    && forall i :: 0 <= i < |steps| ==> StepAt(states, steps, i)
  }

  lemma RunStep(states: seq<Shared>, steps: seq<Step>, i: nat)
    requires Run(states, steps) && i < |steps|
    ensures Enabled(states[i], steps[i]) && states[i + 1] == After(states[i], steps[i])
  {
    assert StepAt(states, steps, i);
  }

  // ---- the invariant ----

  /** Every key in the store belongs to route `r` and to generation `g` or a later one. */
  ghost predicate KeysFor(store: Store, r: u64, g: u64) {
    && (forall k :: k in store.entries ==> k.routeId == r && k.generation >= g)
    && (forall k :: k in store.counts ==> k.routeId == r && k.generation >= g)
  }

  /** Store `id` is within budget, and every response in it is the last one put into it under that very key. */
  ghost predicate StoreOk(id: nat, store: Store, puts: map<(nat, CacheKey), CachedResponse>) {
    Within(store) && forall k :: k in store.entries ==> (id, k) in puts && store.entries[k] == puts[(id, k)]
  }

  /** A call works above its floor; while its store is in the table it works for that route and a live generation. */
  ghost predicate ThreadOk(s: Shared, t: Thread) {
    !t.Advancing? ==>
      && t.op.key.generation >= t.floor
      && (t.Holding? ==>
            && t.store in s.stores
            && forall r :: r in s.locations && s.locations[r] == t.store ==>
                             t.op.key.routeId == r && t.op.key.generation >= s.generation)
  }

  ghost predicate LocationOk(s: Shared, r: u64)
    requires r in s.locations
  {
    s.locations[r] in s.stores && KeysFor(s.stores[s.locations[r]], r, s.generation)
  }

  ghost predicate StoresOk(s: Shared) {
    forall id :: id in s.stores ==> id < s.nextId && StoreOk(id, s.stores[id], s.puts)
  }

  ghost predicate LocationsOk(s: Shared) { forall r :: r in s.locations ==> LocationOk(s, r) }

  ghost predicate Apart(s: Shared) {
    forall q, r :: q in s.locations && r in s.locations && s.locations[q] == s.locations[r] ==> q == r
  }

  ghost predicate ThreadsOk(s: Shared) { forall tid :: tid in s.threads ==> ThreadOk(s, s.threads[tid]) }

  ghost predicate Inv(s: Shared) {
    s.retired <= s.generation && StoresOk(s) && LocationsOk(s) && Apart(s) && ThreadsOk(s)
  }

  /** A store that replaced another one by a call for `t`, as far as the invariant can see. */
  ghost predicate Replaces(after: Store, before: Store, op: Op) {
    && Within(after)
    && (forall k :: k in after.entries ==>
                      if op.Put? && op.key == k then after.entries[k] == op.response
                      else k in before.entries && after.entries[k] == before.entries[k])
    && (forall k :: k in after.counts ==> k in before.counts || k == op.key)
  }

  lemma MissCounts(s: Store, k: CacheKey, minUses: nat, now: nat, t: Store, admitted: bool)
    requires MissRecorded(s, k, minUses, now, t, admitted)
    ensures t.counts.Keys <= s.counts.Keys + {k}
  {
    if minUses > 1 && k !in s.counts && k in t.counts {
      assert (t.counts - {k}).Keys == t.counts.Keys - {k};
    }
  }

  lemma PutCounts(s: Store, k: CacheKey, r: CachedResponse, t: Store)
    requires PutDone(s, k, r, t)
    ensures t.counts.Keys <= s.counts.Keys
  {
    ClearedTables(s, k);
  }

  lemma StoreStepCounts(s: Store, c: Call, t: Store, a: Answer)
    requires StoreStep(s, c, t, a)
    ensures t.counts.Keys <= s.counts.Keys + {c.op.key}
  {
    match c.op
    case Get(_) =>
    case GetStale(_) =>
    case Miss(j) =>
      var mid :| LimitsSynced(s, c.cfg, c.limit, c.now, mid) && MissRecorded(mid, j, MinUses(c.cfg), c.now, t, a.yes);
      MissCounts(mid, j, MinUses(c.cfg), c.now, t, a.yes);
    case Put(j, r) =>
      var mid :| LimitsSynced(s, c.cfg, c.limit, c.now, mid) && PutDone(mid, j, r, t);
      PutCounts(mid, j, r, t);
  }

  lemma StoreStepReplaces(s: Store, c: Call, t: Store, a: Answer)
    requires Within(s) && StoreStep(s, c, t, a)
    ensures Replaces(t, s, c.op)
  {
    CacheRuns.StoreStepKeepsBudget(s, c, t, a);
    StoreStepCounts(s, c, t, a);
    forall k | k in t.entries
      ensures if c.op.Put? && c.op.key == k then t.entries[k] == c.op.response
              else k in s.entries && t.entries[k] == s.entries[k]
    {
      CacheRuns.StoreStepEntries(s, c, t, a, k);
    }
  }

  lemma OperateKeepsStores(s: Shared, tid: nat, after: Store)
    requires StoresOk(s) && tid in s.threads && s.threads[tid].Holding? && s.threads[tid].store in s.stores
    requires Replaces(after, s.stores[s.threads[tid].store], s.threads[tid].op)
    ensures StoresOk(AfterOperate(s, tid, s.threads[tid], after))
  {
    var u := AfterOperate(s, tid, s.threads[tid], after);
    forall id | id in u.stores ensures id < u.nextId && StoreOk(id, u.stores[id], u.puts) {
      assert StoreOk(id, s.stores[id], s.puts);
    }
  }

  lemma OperateKeepsInv(s: Shared, tid: nat, after: Store)
    requires Inv(s) && tid in s.threads && s.threads[tid].Holding?
    requires s.threads[tid].store in s.stores
    requires Replaces(after, s.stores[s.threads[tid].store], s.threads[tid].op)
    ensures Inv(AfterOperate(s, tid, s.threads[tid], after))
  {
    var t := s.threads[tid];
    var u := AfterOperate(s, tid, t, after);
    assert ThreadOk(s, t);
    OperateKeepsStores(s, tid, after);
    forall r | r in u.locations ensures LocationOk(u, r) {
      assert LocationOk(s, r);
    }
    forall i | i in u.threads ensures ThreadOk(u, u.threads[i]) {
      assert ThreadOk(s, s.threads[i]);
    }
  }

  /** One more call in flight changes nothing for the others. */
  lemma ThreadAddedKeepsInv(s: Shared, tid: nat, t: Thread)
    requires Inv(s) && ThreadOk(s, t)
    ensures Inv(s.(threads := s.threads[tid := t]))
  {
    var u := s.(threads := s.threads[tid := t]);
    forall r | r in u.locations ensures LocationOk(u, r) {
      assert LocationOk(s, r);
    }
    forall i | i in u.threads ensures ThreadOk(u, u.threads[i]) {
      assert i != tid ==> ThreadOk(s, s.threads[i]);
    }
  }

  lemma HeldIsOk(s: Shared, op: Op, cfg: CacheConfig)
    requires Inv(s) && op.key.generation >= s.generation && op.key.routeId in s.locations
    ensures ThreadOk(s, Holding(op, cfg, s.locations[op.key.routeId], s.retired))
  {
    assert LocationOk(s, op.key.routeId);
  }

  lemma BeginUseKeepsInv(s: Shared, tid: nat, op: Op, cfg: CacheConfig)
    requires Inv(s)
    ensures Inv(AfterBeginUse(s, tid, op, cfg))
  {
    if cfg.enabled && op.key.generation >= s.generation {
      if op.key.routeId in s.locations {
        HeldIsOk(s, op, cfg);
        ThreadAddedKeepsInv(s, tid, Holding(op, cfg, s.locations[op.key.routeId], s.retired));
      } else {
        ThreadAddedKeepsInv(s, tid, Creating(op, cfg, s.retired));
      }
    }
  }

  /** A fresh, empty store enters the table under an id no call has seen. */
  function WithNewStore(s: Shared, tid: nat, t: Thread, store: Store): Shared
    requires t.Creating?
  {
    s.(stores := s.stores[s.nextId := store], nextId := s.nextId + 1,
    locations := s.locations[t.op.key.routeId := s.nextId],
    threads := s.threads[tid := Holding(t.op, t.cfg, s.nextId, t.floor)])
  }

  lemma NewStoreKeepsStores(s: Shared, tid: nat, t: Thread, store: Store)
    requires StoresOk(s) && t.Creating? && Within(store) && store.entries == map[]
    ensures StoresOk(WithNewStore(s, tid, t, store))
  {
    var u := WithNewStore(s, tid, t, store);
    forall id | id in u.stores ensures id < u.nextId && StoreOk(id, u.stores[id], u.puts) {
      assert id in s.stores ==> StoreOk(id, s.stores[id], s.puts);
    }
  }

  lemma NewStoreKeepsLocations(s: Shared, tid: nat, t: Thread, store: Store)
    requires StoresOk(s) && LocationsOk(s) && Apart(s) && t.Creating? && t.op.key.routeId !in s.locations
    requires store.entries == map[] && store.counts == map[]
    ensures var u := WithNewStore(s, tid, t, store); LocationsOk(u) && Apart(u)
  {
    var u := WithNewStore(s, tid, t, store);
    forall r | r in u.locations ensures LocationOk(u, r) && (r in s.locations ==> u.locations[r] < s.nextId) {
      assert r in s.locations ==> LocationOk(s, r);
    }
  }

  lemma NewStoreKeepsThreads(s: Shared, tid: nat, t: Thread, store: Store)
    requires StoresOk(s) && LocationsOk(s) && ThreadsOk(s) && t.Creating? && t.op.key.routeId !in s.locations
    requires ThreadOk(s, t)
    requires t.op.key.generation >= s.generation
    ensures ThreadsOk(WithNewStore(s, tid, t, store))
  {
    var u := WithNewStore(s, tid, t, store);
    forall r | r in s.locations ensures s.locations[r] < s.nextId {
      assert LocationOk(s, r);
    }
    forall i | i in u.threads ensures ThreadOk(u, u.threads[i]) {
      assert i != tid ==> ThreadOk(s, s.threads[i]);
    }
  }

  lemma CreateKeepsInv(s: Shared, tid: nat, now: nat, limit: u64)
    requires Inv(s) && tid in s.threads && s.threads[tid].Creating?
    ensures Inv(AfterCreate(s, tid, s.threads[tid], now, limit))
  {
    var t := s.threads[tid];
    var u := AfterCreate(s, tid, t, now, limit);
    assert ThreadOk(s, t);
    if t.op.key.generation >= s.generation && t.op.key.routeId !in s.locations {
      var store := NewStore(t.cfg, limit, now);
      NewStoreKeepsStores(s, tid, t, store);
      NewStoreKeepsLocations(s, tid, t, store);
      NewStoreKeepsThreads(s, tid, t, store);
    } else {
      forall r | r in u.locations ensures LocationOk(u, r) {
        assert LocationOk(s, r);
      }
      forall i | i in u.threads ensures ThreadOk(u, u.threads[i]) {
        assert i != tid ==> ThreadOk(s, s.threads[i]);
      }
    }
  }

  lemma BeginAdvanceKeepsInv(s: Shared, tid: nat, g: u64)
    requires Inv(s)
    ensures Inv(AfterBeginAdvance(s, tid, g))
  {
    if g <= s.generation {
      RetiredKeepsInv(s, Max(s.retired, g));
    } else {
      ThreadAddedKeepsInv(s, tid, Advancing(g));
    }
  }

  lemma RetiredKeepsInv(s: Shared, retired: u64)
    requires Inv(s) && retired <= s.generation
    ensures Inv(s.(retired := retired))
  {
    var u := s.(retired := retired);
    forall r | r in u.locations ensures LocationOk(u, r) {
      assert LocationOk(s, r);
    }
    forall i | i in u.threads ensures ThreadOk(u, u.threads[i]) {
      assert ThreadOk(s, s.threads[i]);
    }
  }

  lemma EndedKeepsInv(s: Shared, tid: nat, retired: u64)
    requires Inv(s) && retired <= s.generation
    ensures Inv(s.(threads := s.threads - {tid}, retired := retired))
  {
    var u := s.(threads := s.threads - {tid}, retired := retired);
    forall r | r in u.locations ensures LocationOk(u, r) {
      assert LocationOk(s, r);
    }
    forall i | i in u.threads ensures ThreadOk(u, u.threads[i]) {
      assert ThreadOk(s, s.threads[i]);
    }
  }

  lemma FinishAdvanceKeepsInv(s: Shared, tid: nat, g: u64)
    requires Inv(s)
    ensures Inv(AfterFinishAdvance(s, tid, g))
  {
    if g > s.generation {
      var u := AfterFinishAdvance(s, tid, g);
      forall i | i in u.threads ensures ThreadOk(u, u.threads[i]) {
        assert ThreadOk(s, s.threads[i]);
      }
    } else {
      EndedKeepsInv(s, tid, Max(s.retired, g));
    }
  }

  lemma InvalidateKeepsInv(s: Shared, r: u64)
    requires Inv(s)
    ensures Inv(s.(locations := s.locations - {r}))
  {
    var u := s.(locations := s.locations - {r});
    forall q | q in u.locations ensures LocationOk(u, q) {
      assert LocationOk(s, q);
    }
    forall i | i in u.threads ensures ThreadOk(u, u.threads[i]) {
      assert ThreadOk(s, s.threads[i]);
    }
  }

  lemma SweepKeepsInv(s: Shared, id: nat, now: nat)
    requires Inv(s) && id in s.stores
    ensures Inv(s.(stores := s.stores[id := Swept(s.stores[id], now)]))
  {
    CacheRuns.SweepKeepsAccount(s.stores[id], now);
    SweptIsPart(s.stores[id], now);
    var u := s.(stores := s.stores[id := Swept(s.stores[id], now)]);
    assert StoreOk(id, s.stores[id], s.puts);
    forall r | r in u.locations ensures LocationOk(u, r) {
      assert LocationOk(s, r);
    }
    forall i | i in u.threads ensures ThreadOk(u, u.threads[i]) {
      assert ThreadOk(s, s.threads[i]);
    }
  }

  lemma SweptIsPart(s: Store, now: nat)
    ensures SubMap(Swept(s, now).entries, s.entries) && SubMap(Swept(s, now).counts, s.counts)
    ensures Swept(s, now).maxSize == s.maxSize
  {
  }

  lemma StepKeepsInv(s: Shared, step: Step)
    requires Inv(s) && Enabled(s, step)
    ensures Inv(After(s, step))
  {
    match step
    case BeginAdvance(tid, g) => BeginAdvanceKeepsInv(s, tid, g);
    case FinishAdvance(tid) => FinishAdvanceKeepsInv(s, tid, s.threads[tid].generation);
    case BeginUse(tid, op, cfg) => BeginUseKeepsInv(s, tid, op, cfg);
    case Create(tid, now, limit) => CreateKeepsInv(s, tid, now, limit);
    case Operate(tid, now, limit, after, answer) =>
      var t := s.threads[tid];
      assert ThreadOk(s, t) && StoreOk(t.store, s.stores[t.store], s.puts);
      StoreStepReplaces(s.stores[t.store], Call(t.op, t.cfg, now, limit), after, answer);
      OperateKeepsInv(s, tid, after);
    case Invalidate(r) => InvalidateKeepsInv(s, r);
    case SweepOne(id, now) => SweepKeepsInv(s, id, now);
  }

  lemma {:induction false} InvOverEveryRun(states: seq<Shared>, steps: seq<Step>, n: nat)
    requires Run(states, steps) && n < |states|
    ensures Inv(states[n])
  {
    if n > 0 {
      InvOverEveryRun(states, steps, n - 1);
      RunStep(states, steps, n - 1);
      StepKeepsInv(states[n - 1], steps[n - 1]);
    }
  }

  // ---- what callers may rely on ----

  lemma StepRaisesGeneration(s: Shared, step: Step)
    requires Enabled(s, step)
    ensures s.generation <= After(s, step).generation && s.retired <= After(s, step).retired
  {
  }

  /** The generation never goes back. */
  lemma {:induction false} GenerationNeverDecreases(states: seq<Shared>, steps: seq<Step>, m: nat, n: nat)
    requires Run(states, steps) && m <= n < |states|
    ensures states[m].generation <= states[n].generation
    ensures states[m].retired <= states[n].retired
  {
    if m < n {
      GenerationNeverDecreases(states, steps, m, n - 1);
      RunStep(states, steps, n - 1);
      StepRaisesGeneration(states[n - 1], steps[n - 1]);
    }
  }

  /** In every interleaving, a store in the table holds only keys of its route and of live generations. */
  lemma ReachableStoresAreCurrent(states: seq<Shared>, steps: seq<Step>, n: nat, r: u64, k: CacheKey)
    requires Run(states, steps) && n < |states| && r in states[n].locations
    ensures states[n].locations[r] in states[n].stores
    ensures var store := states[n].stores[states[n].locations[r]];
            Within(store) && (k in store.entries || k in store.counts ==>
                                k.routeId == r && k.generation >= states[n].generation)
  {
    InvOverEveryRun(states, steps, n);
    assert LocationOk(states[n], r) && StoreOk(states[n].locations[r], states[n].stores[states[n].locations[r]],
                                               states[n].puts);
  }

  /** A step leaves a call in flight its request and its floor, or ends it. */
  lemma StepKeepsCall(s: Shared, step: Step, tid: nat)
    requires Enabled(s, step) && tid in s.threads && !s.threads[tid].Advancing? && tid in After(s, step).threads
    ensures var t := After(s, step).threads[tid];
            !t.Advancing? && t.op == s.threads[tid].op && t.floor == s.threads[tid].floor
  {
  }

  lemma BeginTakesFloor(s: Shared, tid: nat, op: Op, cfg: CacheConfig)
    requires tid !in s.threads && tid in AfterBeginUse(s, tid, op, cfg).threads
    ensures var t := AfterBeginUse(s, tid, op, cfg).threads[tid]; !t.Advancing? && t.op == op && t.floor == s.retired
  {
  }

  /** A call in flight keeps its request and the floor taken when it began. */
  lemma {:induction false} CallKeepsFloor(states: seq<Shared>, steps: seq<Step>, b: nat, n: nat, tid: nat)
    requires Run(states, steps) && b < n < |states| && steps[b].BeginUse? && steps[b].tid == tid
    requires forall j :: b < j <= n ==> tid in states[j].threads
    ensures var t := states[n].threads[tid]; !t.Advancing? && t.op == steps[b].op && t.floor == states[b].retired
  {
    RunStep(states, steps, n - 1);
    if n > b + 1 {
      CallKeepsFloor(states, steps, b, n - 1, tid);
      StepKeepsCall(states[n - 1], steps[n - 1], tid);
    } else {
      BeginTakesFloor(states[b], tid, steps[b].op, steps[b].cfg);
    }
  }

  /** Step `a` is the lock region in which an advance to `g` returns: at once, or after taking the write lock. */
  ghost predicate AdvanceReturns(states: seq<Shared>, steps: seq<Step>, a: nat, g: u64)
    requires a < |steps| < |states| && StepAt(states, steps, a)
  {
    || (steps[a].BeginAdvance? && steps[a].generation == g && g <= states[a].generation)
    || (steps[a].FinishAdvance? && states[a].threads[steps[a].tid].generation == g)
  }

  // ---- what a lookup finds ----

  /** The step is the lock region of a put of `k` into store `id`. */
  ghost predicate PutsInto(s: Shared, step: Step, id: nat, k: CacheKey) {
    && step.Operate? && step.tid in s.threads
    && var t := s.threads[step.tid];
    t.Holding? && t.store == id && t.op.Put? && t.op.key == k
  }

  /** Step `i` put `r` under `k` into store `id`, and no later step before `n` put anything there. */
  ghost predicate LastPutAt(states: seq<Shared>, steps: seq<Step>, i: nat, n: nat, id: nat, k: CacheKey,
                            r: CachedResponse)
    requires n < |states| == |steps| + 1
  {
    && i < n && PutsInto(states[i], steps[i], id, k) && states[i].threads[steps[i].tid].op.response == r
    && forall j :: i < j < n ==> !PutsInto(states[j], steps[j], id, k)
  }

  lemma StepPuts(s: Shared, step: Step, id: nat, k: CacheKey)
    requires Enabled(s, step) && (id, k) in After(s, step).puts
    ensures PutsInto(s, step, id, k) ==> After(s, step).puts[(id, k)] == s.threads[step.tid].op.response
    ensures !PutsInto(s, step, id, k) ==> (id, k) in s.puts && After(s, step).puts[(id, k)] == s.puts[(id, k)]
  {
  }

  lemma {:induction false} PutsAreLast(states: seq<Shared>, steps: seq<Step>, n: nat, id: nat, k: CacheKey)
    returns (i: nat)
    requires Run(states, steps) && n < |states| && (id, k) in states[n].puts
    ensures LastPutAt(states, steps, i, n, id, k, states[n].puts[(id, k)])
  {
    RunStep(states, steps, n - 1);
    StepPuts(states[n - 1], steps[n - 1], id, k);
    if PutsInto(states[n - 1], steps[n - 1], id, k) {
      i := n - 1;
    } else {
      i := PutsAreLast(states, steps, n - 1, id, k);
    }
  }

  /** In every interleaving a lookup returns the last response put under its key into the store it holds. */
  lemma FindsLastPut(states: seq<Shared>, steps: seq<Step>, n: nat) returns (i: nat)
    requires Run(states, steps) && n < |steps| && StepAt(states, steps, n)
    requires steps[n].Operate? && steps[n].answer.Found? && steps[n].answer.response.Some?
    ensures var t := states[n].threads[steps[n].tid];
            LastPutAt(states, steps, i, n, t.store, t.op.key, steps[n].answer.response.value)
  {
    InvOverEveryRun(states, steps, n);
    var t := states[n].threads[steps[n].tid];
    RunStep(states, steps, n);
    assert ThreadOk(states[n], t) && StoreOk(t.store, states[n].stores[t.store], states[n].puts);
    i := PutsAreLast(states, steps, n, t.store, t.op.key);
  }

  /**
    * A lookup that begins after an advance to `g` has returned never finds an entry of a generation
    * below `g`, whatever old calls still do to orphaned stores.
    */
  lemma RetiredEntriesNeverReturn(states: seq<Shared>, steps: seq<Step>, a: nat, b: nat, n: nat, g: u64)
    returns (i: nat)
    requires Run(states, steps) && a < b < n < |steps| && StepAt(states, steps, a)
    requires AdvanceReturns(states, steps, a, g)
    requires steps[b].BeginUse? && steps[n].Operate? && steps[n].tid == steps[b].tid
    requires forall j :: b < j <= n ==> steps[b].tid in states[j].threads
    requires StepAt(states, steps, n) && steps[n].answer.Found? && steps[n].answer.response.Some?
    ensures steps[b].op.key.generation >= g
    ensures var id := states[n].threads[steps[n].tid].store;
            LastPutAt(states, steps, i, n, id, steps[b].op.key, steps[n].answer.response.value)
  {
    InvOverEveryRun(states, steps, n);
    CallKeepsFloor(states, steps, b, n, steps[b].tid);
    RunStep(states, steps, a);
    GenerationNeverDecreases(states, steps, a + 1, b);
    assert ThreadOk(states[n], states[n].threads[steps[b].tid]);
    i := FindsLastPut(states, steps, n);
  }
}

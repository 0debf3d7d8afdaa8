/** Whole runs of the response cache, one call at a time. */
module CacheRuns {
  import opened Common
  import opened Weights
  import opened CacheStore

  datatype Backend = Backend(generation: u64, locations: map<u64, Store>)

  datatype Event = Advance(generation: u64) | Invalidate(routeId: u64) | SweepAll(now: nat) | Serve(call: Call)

  function Refusal(op: Op): Answer {
    match op
    case Get(_) => Found(None)
    case GetStale(_) => Found(None)
    case Miss(_) => Admitted(false)
    case Put(_, _) => Done
  }

  ghost function LocationFor(b: Backend, c: Call): Store {
    if c.op.key.routeId in b.locations then b.locations[c.op.key.routeId] else NewStore(c.cfg, c.limit, c.now)
  }

  /** Disabled caches, retired generations and reads of a missing location touch nothing. */
  predicate Refused(b: Backend, c: Call) {
    || !c.cfg.enabled
    || c.op.key.generation < b.generation
    || ((c.op.Get? || c.op.GetStale?) && c.op.key.routeId !in b.locations)
  }

  ghost predicate ServeStep(b: Backend, c: Call, d: Backend, a: Answer) {
    if Refused(b, c) then d == b && a == Refusal(c.op)
    else
      var r := c.op.key.routeId;
      && r in d.locations
      && StoreStep(LocationFor(b, c), c, d.locations[r], a)
      && d == b.(locations := b.locations[r := d.locations[r]])
  }

  ghost predicate BackendStep(b: Backend, e: Event, d: Backend, a: Answer) {
    match e
    case Advance(g) => d == (if g > b.generation then Backend(g, map[]) else b)
    case Invalidate(r) => d == b.(locations := b.locations - {r})
    case SweepAll(now) => d == b.(locations := map r | r in b.locations :: Swept(b.locations[r], now))
    case Serve(c) => ServeStep(b, c, d, a)
  }

  ghost predicate StepAt(bs: seq<Backend>, es: seq<Event>, answers: seq<Answer>, i: nat)
    requires i < |es| < |bs| && i < |answers|
  {
    BackendStep(bs[i], es[i], bs[i + 1], answers[i])
  }

  ghost predicate BackendRun(bs: seq<Backend>, es: seq<Event>, answers: seq<Answer>) {
    && |bs| == |es| + 1 && |answers| == |es| && bs[0] == Backend(0, map[])
    && forall i :: 0 <= i < |es| ==> StepAt(bs, es, answers, i)
  }

  // ---- the byte budget ----

  lemma RoomKeepsAccount(s: Store, size: nat, t: Store)
    requires Accounted(s) && RoomMade(s, size, t)
    ensures Accounted(t)
  {
    HeldSplit(s, t.entries, t.counts);
  }

  lemma SweepKeepsAccount(s: Store, now: nat)
    requires Accounted(s)
    ensures Accounted(Swept(s, now)) && Swept(s, now).currentSize <= s.currentSize
  {
    var t := Swept(s, now);
    HeldSplit(s, t.entries, t.counts);
  }

  lemma SyncKeepsBudget(s: Store, cfg: CacheConfig, limit: u64, now: nat, t: Store)
    requires Accounted(s) && LimitsSynced(s, cfg, limit, now, t)
    ensures Within(t) && t.maxSize == limit
  {
    SweepKeepsAccount(s.(ttl := Ttl(cfg), retention := Retention(cfg), maxSize := limit), now);
    RoomKeepsAccount(Retuned(s, cfg, limit, now), 0, t);
  }

  lemma CountPutKeepsBudget(s: Store, k: CacheKey, c: MissCount, t: Store)
    requires Accounted(s) && CountPut(s, k, c, t)
    ensures Within(t)
  {
    RoomKeepsAccount(s, CountSize(k, c), BeforeCount(t, k, CountSize(k, c)));
    WeightWithout(t.counts, k, CountSize);
  }

  lemma MissKeepsBudget(s: Store, k: CacheKey, minUses: nat, now: nat, t: Store, admitted: bool)
    requires Within(s) && MissRecorded(s, k, minUses, now, t, admitted)
    ensures Within(t)
  {
    if minUses > 1 {
      if k in s.counts {
        WeightUpdate(s.counts, k, t.counts[k], CountSize);
      } else if CountSize(k, MissCount(1, now)) <= s.maxSize {
        CountPutKeepsBudget(s, k, MissCount(1, now), t);
      }
    }
  }

  lemma ClearedAccount(s: Store, k: CacheKey)
    requires Accounted(s)
    ensures Accounted(WithoutEntry(WithoutCount(s, k), k))
    ensures WithoutEntry(WithoutCount(s, k), k).currentSize <= s.currentSize
  {
    if k in s.counts { WeightWithout(s.counts, k, CountSize); }
    if k in s.entries { WeightWithout(s.entries, k, EntrySize); }
  }

  lemma EntryPutKeepsBudget(cleared: Store, k: CacheKey, r: CachedResponse, t: Store)
    requires Accounted(cleared) && EntryPut(cleared, k, r, t)
    ensures Within(t)
  {
    RoomKeepsAccount(cleared, EntrySize(k, r), BeforeEntry(t, k, EntrySize(k, r)));
    WeightWithout(t.entries, k, EntrySize);
  }

  lemma PutKeepsBudget(s: Store, k: CacheKey, r: CachedResponse, t: Store)
    requires Within(s) && PutDone(s, k, r, t)
    ensures Within(t)
  {
    ClearedAccount(s, k);
    if EntrySize(k, r) <= s.maxSize {
      EntryPutKeepsBudget(WithoutEntry(WithoutCount(s, k), k), k, r, t);
    }
  }

  lemma StoreStepKeepsBudget(s: Store, c: Call, t: Store, a: Answer)
    requires Within(s) && StoreStep(s, c, t, a)
    ensures Within(t)
  {
    match c.op
    case Get(_) =>
    case GetStale(_) =>
    case Miss(k) =>
      var mid :| LimitsSynced(s, c.cfg, c.limit, c.now, mid) && MissRecorded(mid, k, MinUses(c.cfg), c.now, t, a.yes);
      SyncKeepsBudget(s, c.cfg, c.limit, c.now, mid);
      MissKeepsBudget(mid, k, MinUses(c.cfg), c.now, t, a.yes);
    case Put(k, r) =>
      var mid :| LimitsSynced(s, c.cfg, c.limit, c.now, mid) && PutDone(mid, k, r, t);
      SyncKeepsBudget(s, c.cfg, c.limit, c.now, mid);
      PutKeepsBudget(mid, k, r, t);
  }

  ghost predicate Budgeted(b: Backend) { forall r :: r in b.locations ==> Within(b.locations[r]) }

  lemma StepKeepsBudget(b: Backend, e: Event, d: Backend, a: Answer)
    requires Budgeted(b) && BackendStep(b, e, d, a)
    ensures Budgeted(d)
  {
    match e
    case Advance(_) =>
    case Invalidate(_) =>
    case SweepAll(now) =>
      forall r | r in d.locations ensures Within(d.locations[r]) {
        SweepKeepsAccount(b.locations[r], now);
      }
    case Serve(c) =>
      if !Refused(b, c) {
        StoreStepKeepsBudget(LocationFor(b, c), c, d.locations[c.op.key.routeId], a);
      }
  }

  /** Whatever the calls, clocks, configs and limits, every location's size is exact and within its limit. */
  lemma {:induction false} BudgetOverEveryRun(bs: seq<Backend>, es: seq<Event>, answers: seq<Answer>, n: nat)
    requires BackendRun(bs, es, answers) && n < |bs|
    ensures Budgeted(bs[n])
  {
    if n > 0 {
      BudgetOverEveryRun(bs, es, answers, n - 1);
      assert StepAt(bs, es, answers, n - 1);
      StepKeepsBudget(bs[n - 1], es[n - 1], bs[n], answers[n - 1]);
    }
  }

  // ---- the cache is a sub-map of the last response put per key ----

  /** The specification: what was last handed to `put`, per key. */
  function LastPut(es: seq<Event>): map<CacheKey, CachedResponse> {
    if es == [] then map[]
    else
      var before := LastPut(es[..|es| - 1]);
      match es[|es| - 1]
      case Serve(Call(Put(k, r), _, _, _)) => before[k := r]
      case _ => before
  }

  /** A route's config is fixed within a config generation. */
  predicate Configured(es: seq<Event>, config: (u64, u64) -> CacheConfig) {
    forall i :: 0 <= i < |es| && es[i].Serve? ==>
                  es[i].call.cfg == config(es[i].call.op.key.generation, es[i].call.op.key.routeId)
  }

  predicate Tracks(b: Backend, last: map<CacheKey, CachedResponse>, config: (u64, u64) -> CacheConfig) {
    forall r, k :: r in b.locations && k in b.locations[r].entries ==>
                     && k.routeId == r && k.generation >= b.generation
                     && config(k.generation, k.routeId).enabled
                     && k in last && b.locations[r].entries[k] == last[k]
  }

  lemma MissKeepsEntries(s: Store, c: Call, mid: Store, j: CacheKey, t: Store, admitted: bool, k: CacheKey)
    requires LimitsSynced(s, c.cfg, c.limit, c.now, mid) && MissRecorded(mid, j, MinUses(c.cfg), c.now, t, admitted)
    requires k in t.entries
    ensures k in s.entries && t.entries[k] == s.entries[k]
  {
    assert k in mid.entries;
  }

  lemma SyncKeepsEntries(s: Store, cfg: CacheConfig, limit: u64, now: nat, mid: Store, k: CacheKey)
    requires LimitsSynced(s, cfg, limit, now, mid) && k in mid.entries
    ensures k in s.entries && mid.entries[k] == s.entries[k]
  {
  }

  /** Nothing but a put adds or changes a response, and a put only under its own key. */
  lemma StoreStepEntries(s: Store, c: Call, t: Store, a: Answer, k: CacheKey)
    requires StoreStep(s, c, t, a) && k in t.entries
    ensures if c.op.Put? && c.op.key == k then t.entries[k] == c.op.response
            else k in s.entries && t.entries[k] == s.entries[k]
  {
    match c.op
    case Get(_) =>
    case GetStale(_) =>
    case Miss(j) =>
      var mid :| LimitsSynced(s, c.cfg, c.limit, c.now, mid) && MissRecorded(mid, j, MinUses(c.cfg), c.now, t, a.yes);
      MissKeepsEntries(s, c, mid, j, t, a.yes, k);
    case Put(j, r) =>
      var mid :| LimitsSynced(s, c.cfg, c.limit, c.now, mid) && PutDone(mid, j, r, t);
      if k == j {
        PutHolds(mid, j, r, t);
      } else {
        PutKeepsOthers(mid, j, r, t, k);
        SyncKeepsEntries(s, c.cfg, c.limit, c.now, mid, k);
      }
  }

  lemma PutHolds(s: Store, k: CacheKey, r: CachedResponse, t: Store)
    requires PutDone(s, k, r, t)
    ensures k in t.entries <==> EntrySize(k, r) <= s.maxSize
    ensures k in t.entries ==> t.entries[k] == r
  {
    if EntrySize(k, r) > s.maxSize { ClearedTables(s, k); }
  }

  lemma PutKeepsOthers(s: Store, k: CacheKey, r: CachedResponse, t: Store, other: CacheKey)
    requires PutDone(s, k, r, t) && other != k && other in t.entries
    ensures other in s.entries && t.entries[other] == s.entries[other]
  {
    if EntrySize(k, r) <= s.maxSize {
      assert other in t.entries - {k};
    }
  }

  /** A put decides its own key: stored exactly when it fits the limit, otherwise the older value is gone too. */
  lemma PutDecides(s: Store, c: Call, t: Store, a: Answer)
    requires StoreStep(s, c, t, a) && c.op.Put?
    ensures c.op.key in t.entries <==> EntrySize(c.op.key, c.op.response) <= c.limit
    ensures c.op.key in t.entries ==> t.entries[c.op.key] == c.op.response
  {
    var mid :| LimitsSynced(s, c.cfg, c.limit, c.now, mid) && PutDone(mid, c.op.key, c.op.response, t);
    assert mid.maxSize == c.limit;
    PutHolds(mid, c.op.key, c.op.response, t);
  }

  lemma StepTracks(b: Backend, e: Event, d: Backend, a: Answer, last: map<CacheKey, CachedResponse>,
                   config: (u64, u64) -> CacheConfig)
    requires Tracks(b, last, config) && BackendStep(b, e, d, a)
    requires e.Serve? ==> e.call.cfg == config(e.call.op.key.generation, e.call.op.key.routeId)
    ensures Tracks(d, if e.Serve? && e.call.op.Put? then last[e.call.op.key := e.call.op.response] else last, config)
  {
    if e.Serve? && !Refused(b, e.call) {
      ServeTracks(b, e.call, d, a, last, config);
    }
  }

  lemma ServeTracks(b: Backend, c: Call, d: Backend, a: Answer, last: map<CacheKey, CachedResponse>,
                    config: (u64, u64) -> CacheConfig)
    requires Tracks(b, last, config) && ServeStep(b, c, d, a) && !Refused(b, c)
    requires c.cfg == config(c.op.key.generation, c.op.key.routeId)
    ensures Tracks(d, if c.op.Put? then last[c.op.key := c.op.response] else last, config)
  {
    var now := if c.op.Put? then last[c.op.key := c.op.response] else last;
    forall r, k | r in d.locations && k in d.locations[r].entries
      ensures k.routeId == r && k.generation >= d.generation && config(k.generation, k.routeId).enabled
      ensures k in now && d.locations[r].entries[k] == now[k]
    {
      if r == c.op.key.routeId {
        StoreStepEntries(LocationFor(b, c), c, d.locations[r], a, k);
        if !(c.op.Put? && c.op.key == k) {
          assert r in b.locations && k in b.locations[r].entries;
        }
      } else {
        assert r in b.locations && k in b.locations[r].entries && k != c.op.key;
      }
    }
  }

  lemma {:induction false} TracksOverEveryRun(bs: seq<Backend>, es: seq<Event>, answers: seq<Answer>,
                                              config: (u64, u64) -> CacheConfig, n: nat)
    requires BackendRun(bs, es, answers) && n < |bs| && Configured(es, config)
    ensures Tracks(bs[n], LastPut(es[..n]), config)
  {
    if n > 0 {
      TracksOverEveryRun(bs, es, answers, config, n - 1);
      assert StepAt(bs, es, answers, n - 1);
      StepTracks(bs[n - 1], es[n - 1], bs[n], answers[n - 1], LastPut(es[..n - 1]), config);
      LastPutStep(es, n - 1);
    }
  }

  lemma LastPutStep(es: seq<Event>, n: nat)
    requires n < |es|
    ensures LastPut(es[..n + 1]) == if es[n].Serve? && es[n].call.op.Put?
                                    then LastPut(es[..n])[es[n].call.op.key := es[n].call.op.response]
                                    else LastPut(es[..n])
  {
    assert es[..n + 1][..n] == es[..n];
  }

  /** Anything the cache returns is the latest response put under that key. */
  lemma ReturnsLatestPut(bs: seq<Backend>, es: seq<Event>, answers: seq<Answer>, config: (u64, u64) -> CacheConfig,
                         n: nat)
    requires BackendRun(bs, es, answers) && n < |es| && Configured(es, config)
    requires es[n].Serve? && answers[n].Found? && answers[n].response.Some?
    requires es[n].call.op.Get? || es[n].call.op.GetStale?
    ensures es[n].call.op.key in LastPut(es[..n])
    ensures answers[n].response.value == LastPut(es[..n])[es[n].call.op.key]
    ensures Elapsed(es[n].call.now, answers[n].response.value.createdAt) < Retention(es[n].call.cfg)
  {
    TracksOverEveryRun(bs, es, answers, config, n);
    var c := es[n].call;
    assert StepAt(bs, es, answers, n);
    assert c.op.key in bs[n].locations[c.op.key.routeId].entries;
  }

  ghost predicate Stored(b: Backend, k: CacheKey) { k.routeId in b.locations && k in b.locations[k.routeId].entries }

  /**
    * After any run a put leaves its key stored exactly when the cache is enabled, the generation of the
    * key is not retired and the entry fits the limit of the call, and then with the response put.
    */
  lemma PutStores(bs: seq<Backend>, es: seq<Event>, answers: seq<Answer>, config: (u64, u64) -> CacheConfig, n: nat,
                  c: Call)
    requires BackendRun(bs, es, answers) && n < |es| && Configured(es, config) && es[n] == Serve(c) && c.op.Put?
    ensures Stored(bs[n + 1], c.op.key) <==>
            c.cfg.enabled && c.op.key.generation >= bs[n].generation && EntrySize(c.op.key, c.op.response) <= c.limit
    ensures Stored(bs[n + 1], c.op.key) ==> bs[n + 1].locations[c.op.key.routeId].entries[c.op.key] == c.op.response
  {
    assert StepAt(bs, es, answers, n);
    if Refused(bs[n], c) {
      TracksOverEveryRun(bs, es, answers, config, n);
    } else {
      PutDecides(LocationFor(bs[n], c), c, bs[n + 1].locations[c.op.key.routeId], answers[n]);
    }
  }

  // ---- sweeping is invisible ----

  /** No later lookup can tell a swept store from the unswept one. */
  lemma SweepUnseen(s: Store, swept: nat, later: nat, k: CacheKey, cfg: CacheConfig)
    requires swept <= later && s.retention == Retention(cfg)
    ensures Find(Swept(s, swept).entries, k, later, Ttl(cfg)) == Find(s.entries, k, later, Ttl(cfg))
    ensures FindStale(Swept(s, swept).entries, k, later, cfg) == FindStale(s.entries, k, later, cfg)
  {
    if k in s.entries && k !in Swept(s, swept).entries {
      assert Elapsed(later, s.entries[k].createdAt) >= s.retention >= Ttl(cfg);
    }
  }
}

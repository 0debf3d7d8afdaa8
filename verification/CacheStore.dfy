/** One cache location: stored responses and admission counters sharing a byte budget. */
module CacheStore {
  import opened Common
  import opened Weights

  const NANOS: nat := 1_000_000_000
  const DURATION_MAX: nat := (U64_MAX + 1) * NANOS - 1
  const DEFAULT_TTL: Duration := 60 * NANOS

  /** Nanoseconds, within what `std::time::Duration` can hold. */
  type Duration = d: nat | d <= DURATION_MAX

  datatype CacheKey = CacheKey(generation: u64, routeId: u64, host: string, verb: string, uri: string)

  datatype CachedResponse = CachedResponse(status: nat, headers: seq<(string, string)>, body: seq<byte>, createdAt: nat)

  datatype MissCount = MissCount(count: u64, lastSeen: nat)

  datatype CacheConfig = CacheConfig(enabled: bool, maxSize: Option<u64>, ttl: Option<Duration>,
                                     staleIfError: Option<Duration>, minUses: Option<u64>)

  // ---- sizes and times ----

  function HeadersSize(headers: seq<(string, string)>): u64 {
    if headers == [] then 0
    else
      var last := headers[|headers| - 1];
      SatAdd(SatAdd(HeadersSize(headers[..|headers| - 1]), |last.0|), |last.1|)
  }

  function ResponseSize(r: CachedResponse): u64 {
    SatAdd(SatAdd(|r.body|, HeadersSize(r.headers)), 128)
  }

  function KeySize(k: CacheKey): u64 {
    SatAdd(SatAdd(SatAdd(|k.host|, |k.verb|), |k.uri|), 128)
  }

  /** What a stored response costs. */
  function EntrySize(k: CacheKey, r: CachedResponse): nat { SatAdd(KeySize(k), ResponseSize(r)) }

  /** What an admission counter costs. */
  function CountSize(k: CacheKey, c: MissCount): nat { SatAdd(KeySize(k), 64) }

  /** `Instant::elapsed`: never negative. */
  function Elapsed(now: nat, since: nat): nat { SatSub(now, since) }

  function Ttl(cfg: CacheConfig): Duration {
    match cfg.ttl case Some(d) => d case None => DEFAULT_TTL
  }

  /** `Duration::saturating_add`. */
  function DurationAdd(a: Duration, b: Duration): Duration {
    if a + b <= DURATION_MAX then a + b else DURATION_MAX
  }

  function Retention(cfg: CacheConfig): Duration {
    DurationAdd(Ttl(cfg), match cfg.staleIfError case Some(d) => d case None => 0)
  }

  function MinUses(cfg: CacheConfig): nat {
    match cfg.minUses case Some(n) => n case None => 1
  }

  // ---- the value of a location cache ----

  datatype Store = Store(ttl: nat, retention: nat, maxSize: u64, currentSize: int,
                         entries: map<CacheKey, CachedResponse>,
                         counts: map<CacheKey, MissCount>, lastSweep: nat)

  /** The exact number of bytes a store holds. */
  ghost function Held(entries: map<CacheKey, CachedResponse>, counts: map<CacheKey, MissCount>): nat {
    Weight(entries, EntrySize) + Weight(counts, CountSize)
  }

  /** The bytes of what `s` holds beyond `entries` and `counts`. */
  ghost function LeftOut(s: Store, entries: map<CacheKey, CachedResponse>, counts: map<CacheKey, MissCount>): nat {
    Held(s.entries - entries.Keys, s.counts - counts.Keys)
  }

  ghost predicate Accounted(s: Store) { s.currentSize == Held(s.entries, s.counts) }

  ghost predicate Within(s: Store) { Accounted(s) && s.currentSize <= s.maxSize }

  /** The bytes held are those of any pair of sub-maps plus those of what the sub-maps leave out. */
  lemma HeldSplit(s: Store, entries: map<CacheKey, CachedResponse>, counts: map<CacheKey, MissCount>)
    requires SubMap(entries, s.entries) && SubMap(counts, s.counts)
    ensures Held(s.entries, s.counts) == Held(entries, counts) + LeftOut(s, entries, counts)
  {
    WeightSplit(s.entries, entries, EntrySize);
    WeightSplit(s.counts, counts, CountSize);
  }

  // ---- what each operation may do to a store ----

  ghost function WithoutCount(s: Store, k: CacheKey): Store {
    if k in s.counts then s.(counts := s.counts - {k}, currentSize := s.currentSize - CountSize(k, s.counts[k])) else s
  }

  ghost function WithoutEntry(s: Store, k: CacheKey): Store {
    if k in s.entries
    then s.(entries := s.entries - {k}, currentSize := s.currentSize - EntrySize(k, s.entries[k])) else s
  }

  /** Something was evicted whose return would not leave `size` bytes free. */
  ghost predicate LastVictim(s: Store, size: nat, t: Store) {
    || (exists k :: k in s.counts && k !in t.counts && t.currentSize + CountSize(k, s.counts[k]) > s.maxSize - size)
    || (exists k :: k in s.entries && k !in t.entries && t.currentSize + EntrySize(k, s.entries[k]) > s.maxSize - size)
  }

  /**
    * Making room keeps a sub-map of both tables, leaves `size` bytes free, sacrifices
    * every counter before the first response, and stops at the first victim that suffices.
    */
  ghost predicate RoomMade(s: Store, size: nat, t: Store) {
    && t == s.(currentSize := t.currentSize, entries := t.entries, counts := t.counts)
    && SubMap(t.entries, s.entries) && SubMap(t.counts, s.counts)
    && t.currentSize == s.currentSize - LeftOut(s, t.entries, t.counts) <= s.maxSize - size
    && (t.counts != map[] ==> t.entries == s.entries)
    && (t != s ==> LastVictim(s, size, t))
  }

  ghost function Swept(s: Store, now: nat): Store {
    var entries := map k | k in s.entries && Elapsed(now, s.entries[k].createdAt) < s.retention :: s.entries[k];
    var counts := map k | k in s.counts && Elapsed(now, s.counts[k].lastSeen) < s.ttl :: s.counts[k];
    s.(entries := entries, counts := counts, currentSize := s.currentSize - LeftOut(s, entries, counts),
    lastSweep := now)
  }

  /** Limits taken from the config, then the once-a-second sweep. */
  ghost function Retuned(s: Store, cfg: CacheConfig, maxSize: u64, now: nat): Store {
    var t := s.(ttl := Ttl(cfg), retention := Retention(cfg), maxSize := maxSize);
    if Elapsed(now, s.lastSweep) >= NANOS then Swept(t, now) else t
  }

  ghost predicate LimitsSynced(s: Store, cfg: CacheConfig, maxSize: u64, now: nat, t: Store) {
    RoomMade(Retuned(s, cfg, maxSize, now), 0, t)
  }

  function Recount(c: MissCount, ttl: nat, now: nat): MissCount {
    MissCount(SatAdd(if Elapsed(now, c.lastSeen) >= ttl then 0 else c.count, 1), now)
  }

  /** A store as it was before the counter of `k` was added. */
  ghost function BeforeCount(t: Store, k: CacheKey, size: nat): Store {
    t.(counts := t.counts - {k}, currentSize := t.currentSize - size)
  }

  /** One miss for `k`: bump its counter, or make room for a new counter when one fits at all. */
  ghost predicate MissRecorded(s: Store, k: CacheKey, minUses: nat, now: nat, t: Store, admitted: bool) {
    if minUses <= 1 then t == s && admitted
    else if k in s.counts then
      var c := Recount(s.counts[k], s.ttl, now);
      t == s.(counts := s.counts[k := c]) && admitted == (c.count >= minUses)
    else if CountSize(k, MissCount(1, now)) > s.maxSize then t == s && !admitted
    else !admitted && CountPut(s, k, MissCount(1, now), t)
  }

  /** Room was made for the counter and it was added. */
  ghost predicate CountPut(s: Store, k: CacheKey, c: MissCount, t: Store) {
    k in t.counts && t.counts[k] == c && RoomMade(s, CountSize(k, c), BeforeCount(t, k, CountSize(k, c)))
  }

  /** A store as it was before the response of `k` was added. */
  ghost function BeforeEntry(t: Store, k: CacheKey, size: nat): Store {
    t.(entries := t.entries - {k}, currentSize := t.currentSize - size)
  }

  /** One put for `k`: the old response and counter go first, whether or not the new response fits. */
  ghost predicate PutDone(s: Store, k: CacheKey, r: CachedResponse, t: Store) {
    var cleared := WithoutEntry(WithoutCount(s, k), k);
    if EntrySize(k, r) > s.maxSize then t == cleared else EntryPut(cleared, k, r, t)
  }

  /** Room was made for the response and it was added. */
  ghost predicate EntryPut(cleared: Store, k: CacheKey, r: CachedResponse, t: Store) {
    k in t.entries && t.entries[k] == r && RoomMade(cleared, EntrySize(k, r), BeforeEntry(t, k, EntrySize(k, r)))
  }

  // ---- one call under the location lock ----

  datatype Op =
    | Get(key: CacheKey)
    | GetStale(key: CacheKey)
    | Miss(key: CacheKey)
    | Put(key: CacheKey, response: CachedResponse)

  datatype Answer = Found(response: Option<CachedResponse>) | Admitted(yes: bool) | Done

  datatype Call = Call(op: Op, cfg: CacheConfig, now: nat, limit: u64)

  function Find(entries: map<CacheKey, CachedResponse>, key: CacheKey, now: nat, age: nat): Option<CachedResponse> {
    if key in entries && Elapsed(now, entries[key].createdAt) < age then Some(entries[key]) else None
  }

  function FindStale(entries: map<CacheKey, CachedResponse>, key: CacheKey, now: nat,
                     cfg: CacheConfig): Option<CachedResponse> {
    if cfg.staleIfError.None? then None else Find(entries, key, now, Retention(cfg))
  }

  /** Everything a lock region of the backend may do to one location store. */
  ghost predicate StoreStep(s: Store, c: Call, t: Store, a: Answer) {
    match c.op
    case Get(k) => t == s && a == Found(Find(s.entries, k, c.now, Ttl(c.cfg)))
    case GetStale(k) => t == s && a == Found(FindStale(s.entries, k, c.now, c.cfg))
    case Miss(k) =>
      exists mid :: LimitsSynced(s, c.cfg, c.limit, c.now, mid) && a.Admitted?
                    && MissRecorded(mid, k, MinUses(c.cfg), c.now, t, a.yes)
    case Put(k, r) =>
      exists mid :: LimitsSynced(s, c.cfg, c.limit, c.now, mid) && a.Done? && PutDone(mid, k, r, t)
  }

  ghost function NewStore(cfg: CacheConfig, limit: u64, now: nat): Store {
    Store(Ttl(cfg), Retention(cfg), limit, 0, map[], map[], now)
  }

  lemma CountAdded(roomy: Store, k: CacheKey, c: MissCount)
    requires Accounted(roomy) && k !in roomy.counts
    ensures var t := roomy.(counts := roomy.counts[k := c], currentSize := roomy.currentSize + CountSize(k, c));
            Accounted(t) && BeforeCount(t, k, CountSize(k, c)) == roomy
  {
    WeightUpdate(roomy.counts, k, c, CountSize);
    assert roomy.counts[k := c] - {k} == roomy.counts;
  }

  lemma EntryAdded(roomy: Store, k: CacheKey, r: CachedResponse)
    requires Accounted(roomy) && k !in roomy.entries
    ensures var t := roomy.(entries := roomy.entries[k := r], currentSize := roomy.currentSize + EntrySize(k, r));
            Accounted(t) && BeforeEntry(t, k, EntrySize(k, r)) == roomy
  {
    WeightUpdate(roomy.entries, k, r, EntrySize);
    assert roomy.entries[k := r] - {k} == roomy.entries;
  }

  lemma ClearedTables(s: Store, k: CacheKey)
    ensures var cleared := WithoutEntry(WithoutCount(s, k), k);
            cleared == s.(entries := s.entries - {k}, counts := s.counts - {k}, currentSize := cleared.currentSize)
  {
    if k !in s.counts { assert s.counts - {k} == s.counts; }
    if k !in s.entries { assert s.entries - {k} == s.entries; }
  }

  // ---- making room, victim by victim ----

  /** Part of the way: what is left, and that the last victim did not suffice before it went. */
  ghost predicate Evicting(was: Store, size: nat, s: Store) {
    && s == was.(currentSize := s.currentSize, entries := s.entries, counts := s.counts)
    && SubMap(s.entries, was.entries) && SubMap(s.counts, was.counts)
    && (s.counts != map[] ==> s.entries == was.entries)
    && (s != was ==> LastVictim(was, size, s) || s.currentSize > s.maxSize - size)
  }

  lemma FewerKeys<K, V>(m: map<K, V>, k: K)
    requires k in m
    ensures |m - {k}| == |m| - 1
  {
    assert (m - {k}).Keys == m.Keys - {k};
  }

  lemma EvictCount(was: Store, size: nat, s: Store, k: CacheKey)
    requires Evicting(was, size, s) && k in s.counts && s.currentSize > s.maxSize - size
    ensures Evicting(was, size, WithoutCount(s, k))
  {
    assert k in was.counts && k !in WithoutCount(s, k).counts && was.counts[k] == s.counts[k];
  }

  lemma EvictEntry(was: Store, size: nat, s: Store, k: CacheKey)
    requires Evicting(was, size, s) && s.counts == map[] && k in s.entries && s.currentSize > s.maxSize - size
    ensures Evicting(was, size, WithoutEntry(s, k))
  {
    assert k in was.entries && k !in WithoutEntry(s, k).entries && was.entries[k] == s.entries[k];
  }

  lemma NothingLeft(s: Store)
    requires Accounted(s) && s.counts == map[] && s.entries == map[]
    ensures s.currentSize == 0
  {
  }

  lemma EvictedEnough(was: Store, size: nat, s: Store)
    requires Accounted(was) && Accounted(s) && Evicting(was, size, s) && s.currentSize <= s.maxSize - size
    ensures RoomMade(was, size, s)
  {
    HeldSplit(was, s.entries, s.counts);
  }

  /** `LocationCache`: the same tables, updated in place. */
  class LocationCache {
    var ttl: nat
    var retention: nat
    var maxSize: u64
    var currentSize: u64
    var entries: map<CacheKey, CachedResponse>
    var requestCounts: map<CacheKey, MissCount>
    var lastSweep: nat

    ghost function State(): Store
      reads this
    {
      Store(ttl, retention, maxSize, currentSize, entries, requestCounts, lastSweep)
    }

    ghost predicate Valid()
      reads this
    {
      Accounted(State())
    }

    constructor (cfg: CacheConfig, limit: u64, now: nat)
      ensures Valid() && State() == NewStore(cfg, limit, now)
    {
      ttl := Ttl(cfg);
      retention := Retention(cfg);
      maxSize := limit;
      currentSize := 0;
      entries := map[];
      requestCounts := map[];
      lastSweep := now;
    }

    method RemoveResponse(key: CacheKey)
      requires Valid()
      modifies this`entries, this`currentSize
      ensures Valid() && State() == WithoutEntry(old(State()), key)
    {
      if key in entries {
        WeightWithout(entries, key, EntrySize);
        currentSize := currentSize - EntrySize(key, entries[key]);
        entries := entries - {key};
      }
    }

    method RemoveCount(key: CacheKey)
      requires Valid()
      modifies this`requestCounts, this`currentSize
      ensures Valid() && State() == WithoutCount(old(State()), key)
    {
      if key in requestCounts {
        WeightWithout(requestCounts, key, CountSize);
        currentSize := currentSize - CountSize(key, requestCounts[key]);
        requestCounts := requestCounts - {key};
      }
    }

    /** Evicts in arbitrary hash-map order; the exhausted case of the source's loop cannot occur. */
    method MakeRoom(size: u64) returns (ok: bool)
      requires Valid()
      modifies this`entries, this`requestCounts, this`currentSize
      ensures Valid()
      ensures ok == (size <= maxSize)
      ensures if ok then RoomMade(old(State()), size, State()) else State() == old(State())
    {
      if size > maxSize {
        return false;
      }
      ghost var was := State();
      while currentSize > maxSize - size
        invariant Valid() && Evicting(was, size, State())
        decreases |requestCounts| + |entries|
      {
        if requestCounts != map[] {
          var key :| key in requestCounts;
          FewerKeys(requestCounts, key);
          EvictCount(was, size, State(), key);
          RemoveCount(key);
        } else if entries != map[] {
          var key :| key in entries;
          FewerKeys(entries, key);
          EvictEntry(was, size, State(), key);
          RemoveResponse(key);
        } else {
          NothingLeft(State());
          assert false;
        }
      }
      EvictedEnough(was, size, State());
      return true;
    }

    method RecordMiss(key: CacheKey, minUses: nat, now: nat) returns (admitted: bool)
      requires Valid()
      modifies this`entries, this`requestCounts, this`currentSize
      ensures Valid() && MissRecorded(old(State()), key, minUses, now, State(), admitted)
      ensures old(currentSize) <= maxSize ==> currentSize <= maxSize
    {
      if minUses <= 1 {
        return true;
      }
      if key in requestCounts {
        var value := Recount(requestCounts[key], ttl, now);
        WeightUpdate(requestCounts, key, value, CountSize);
        requestCounts := requestCounts[key := value];
        return value.count >= minUses;
      }
      CountIfRoom(key, MissCount(1, now));
      return false;
    }

    /** The rest of `record_miss`, for a key without a counter. */
    method CountIfRoom(key: CacheKey, count: MissCount)
      requires Valid() && key !in requestCounts
      modifies this`entries, this`requestCounts, this`currentSize
      ensures Valid() && (old(currentSize) <= maxSize ==> currentSize <= maxSize)
      ensures if CountSize(key, count) > maxSize then State() == old(State())
              else CountPut(old(State()), key, count, State())
    {
      var size := CountSize(key, count);
      var fits := MakeRoom(size);
      if fits {
        CountAdded(State(), key, count);
        requestCounts := requestCounts[key := count];
        currentSize := currentSize + size;
      }
    }

    method Put(key: CacheKey, response: CachedResponse)
      requires Valid()
      modifies this`entries, this`requestCounts, this`currentSize
      ensures Valid() && PutDone(old(State()), key, response, State())
      ensures old(currentSize) <= maxSize ==> currentSize <= maxSize
    {
      RemoveCount(key);
      RemoveResponse(key);
      ClearedTables(old(State()), key);
      AddIfRoom(key, response);
    }

    /** The second half of `put`, once nothing is held under the key. */
    method AddIfRoom(key: CacheKey, response: CachedResponse)
      requires Valid() && key !in entries
      modifies this`entries, this`requestCounts, this`currentSize
      ensures Valid() && (old(currentSize) <= maxSize ==> currentSize <= maxSize)
      ensures if EntrySize(key, response) > maxSize then State() == old(State())
              else EntryPut(old(State()), key, response, State())
    {
      var size := EntrySize(key, response);
      var fits := MakeRoom(size);
      if fits {
        EntryAdded(State(), key, response);
        currentSize := currentSize + size;
        entries := entries[key := response];
      }
    }

    method EvictStale(now: nat)
      requires Valid()
      modifies this`entries, this`requestCounts, this`currentSize, this`lastSweep
      ensures Valid() && State() == Swept(old(State()), now)
      ensures currentSize <= old(currentSize)
    {
      SweepEntries(now);
      SweepCounts(now);
      lastSweep := now;
      HeldSplit(old(State()), entries, requestCounts);
    }

    method SweepEntries(now: nat)
      requires Valid()
      modifies this`entries, this`currentSize
      ensures Valid() && currentSize <= old(currentSize)
      ensures entries == map k | k in old(entries)
                                 && Elapsed(now, old(entries)[k].createdAt) < retention :: old(entries)[k]
    {
      ghost var was := entries;
      var todo := entries.Keys;
      while todo != {}
        invariant Valid() && todo <= entries.Keys && currentSize <= old(currentSize)
        invariant SubMap(entries, was)
        invariant forall k :: k in entries && k !in todo ==> Elapsed(now, was[k].createdAt) < retention
        invariant forall k :: k in was && k !in entries ==> Elapsed(now, was[k].createdAt) >= retention
        decreases |todo|
      {
        var key :| key in todo;
        todo := todo - {key};
        if Elapsed(now, entries[key].createdAt) >= retention {
          RemoveResponse(key);
        }
      }
    }

    method SweepCounts(now: nat)
      requires Valid()
      modifies this`requestCounts, this`currentSize
      ensures Valid() && currentSize <= old(currentSize)
      ensures requestCounts == map k | k in old(requestCounts)
                                       && Elapsed(now, old(requestCounts)[k].lastSeen) < ttl :: old(requestCounts)[k]
    {
      ghost var was := requestCounts;
      var todo := requestCounts.Keys;
      while todo != {}
        invariant Valid() && todo <= requestCounts.Keys && currentSize <= old(currentSize)
        invariant SubMap(requestCounts, was)
        invariant forall k :: k in requestCounts && k !in todo ==> Elapsed(now, was[k].lastSeen) < ttl
        invariant forall k :: k in was && k !in requestCounts ==> Elapsed(now, was[k].lastSeen) >= ttl
        decreases |todo|
      {
        var key :| key in todo;
        todo := todo - {key};
        if Elapsed(now, requestCounts[key].lastSeen) >= ttl {
          RemoveCount(key);
        }
      }
    }

    method SyncLimits(cfg: CacheConfig, limit: u64, now: nat)
      requires Valid()
      modifies this
      ensures Valid() && LimitsSynced(old(State()), cfg, limit, now, State())
      ensures currentSize <= maxSize
    {
      ttl := Ttl(cfg);
      retention := Retention(cfg);
      maxSize := limit;
      if Elapsed(now, lastSweep) >= NANOS {
        EvictStale(now);
      }
      assert State() == Retuned(old(State()), cfg, limit, now);
      var _ := MakeRoom(0);
    }

    // The four lock regions of the backend. `now` is the clock, `limit` the configured or default size.

    method LockedGet(key: CacheKey, cfg: CacheConfig, now: nat) returns (found: Option<CachedResponse>)
      requires Valid()
      ensures forall limit: u64 :: StoreStep(State(), Call(Get(key), cfg, now, limit), State(), Found(found))
    {
      found := if key in entries && Elapsed(now, entries[key].createdAt) < Ttl(cfg) then Some(entries[key]) else None;
    }

    method LockedGetStale(key: CacheKey, cfg: CacheConfig, now: nat) returns (found: Option<CachedResponse>)
      requires Valid()
      ensures forall limit: u64 :: StoreStep(State(), Call(GetStale(key), cfg, now, limit), State(), Found(found))
    {
      if cfg.staleIfError.None? {
        return None;
      }
      var retention := DurationAdd(Ttl(cfg), cfg.staleIfError.value);
      found := if key in entries && Elapsed(now, entries[key].createdAt) < retention then Some(entries[key]) else None;
    }

    method LockedMiss(key: CacheKey, cfg: CacheConfig, now: nat, limit: u64) returns (admitted: bool)
      requires Valid()
      modifies this
      ensures Valid() && currentSize <= maxSize
      ensures StoreStep(old(State()), Call(Miss(key), cfg, now, limit), State(), Admitted(admitted))
    {
      SyncLimits(cfg, limit, now);
      ghost var mid := State();
      admitted := RecordMiss(key, MinUses(cfg), now);
      assert LimitsSynced(old(State()), cfg, limit, now, mid);
    }

    method LockedPut(key: CacheKey, response: CachedResponse, cfg: CacheConfig, now: nat, limit: u64)
      requires Valid()
      modifies this
      ensures Valid() && currentSize <= maxSize
      ensures StoreStep(old(State()), Call(Op.Put(key, response), cfg, now, limit), State(), Done)
    {
      SyncLimits(cfg, limit, now);
      ghost var mid := State();
      Put(key, response);
      assert LimitsSynced(old(State()), cfg, limit, now, mid);
    }
  }
}

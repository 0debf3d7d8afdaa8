/**
  * What sweeping and a byte budget do to the answers of one location: against a reference that never
  * forgets, every answer is the same unless something of the key asked for was dropped for want of room.
  */
module CacheSweeps {
  import opened Common
  import opened Weights
  import opened CacheStore
  import CacheRuns

  /** The reference: no budget, no sweep, nothing is ever forgotten. */
  datatype Plain = Plain(entries: map<CacheKey, CachedResponse>, counts: map<CacheKey, MissCount>)

  datatype Event = Served(op: Op, now: nat, limit: u64) | SweptAt(now: nat)

  function PlainAfter(p: Plain, e: Event, cfg: CacheConfig): Plain {
    match e
    case Served(Put(k, r), _, _) => Plain(p.entries[k := r], p.counts - {k})
    case Served(Miss(k), now, _) =>
      if MinUses(cfg) <= 1 then p else p.(counts := p.counts[k := Counted(p.counts, k, Ttl(cfg), now)])
    case _ => p
  }

  /** The counter of a key after one more miss. */
  function Counted(counts: map<CacheKey, MissCount>, k: CacheKey, ttl: nat, now: nat): MissCount {
    if k in counts then Recount(counts[k], ttl, now) else MissCount(1, now)
  }

  function PlainAnswer(p: Plain, e: Event, cfg: CacheConfig): Answer {
    match e
    case Served(Get(k), now, _) => Found(Find(p.entries, k, now, Ttl(cfg)))
    case Served(GetStale(k), now, _) => Found(FindStale(p.entries, k, now, cfg))
    case Served(Miss(k), now, _) =>
      Admitted(MinUses(cfg) <= 1 || Counted(p.counts, k, Ttl(cfg), now).count >= MinUses(cfg))
    case _ => Done
  }

  function PlainAt(es: seq<Event>, cfg: CacheConfig): Plain {
    if es == [] then Plain(map[], map[]) else PlainAfter(PlainAt(es[..|es| - 1], cfg), es[|es| - 1], cfg)
  }

  ghost predicate EventStep(s: Store, e: Event, cfg: CacheConfig, t: Store, a: Answer) {
    match e
    case Served(op, now, limit) => StoreStep(s, Call(op, cfg, now, limit), t, a)
    case SweptAt(now) => t == Swept(s, now) && a == Done
  }

  ghost predicate StepAt(ss: seq<Store>, es: seq<Event>, answers: seq<Answer>, cfg: CacheConfig, i: nat)
    requires i < |es| < |ss| && i < |answers|
  {
    EventStep(ss[i], es[i], cfg, ss[i + 1], answers[i])
  }

  /** A run of one location under one config and any limits, on a clock that never goes back. */
  ghost predicate StoreRun(ss: seq<Store>, es: seq<Event>, answers: seq<Answer>, cfg: CacheConfig) {
    && |ss| == |es| + 1 && |answers| == |es|
    && (exists limit, born :: ss[0] == NewStore(cfg, limit, born))
    && (forall i, j :: 0 <= i <= j < |es| ==> es[i].now <= es[j].now)
    && forall i :: 0 <= i < |es| ==> StepAt(ss, es, answers, cfg, i)
  }

  // ---- what is dropped for want of room ----

  predicate Changes(e: Event) { e.Served? && (e.op.Miss? || e.op.Put?) }

  predicate PutOf(e: Event, k: CacheKey) { e.Served? && e.op.Put? && e.op.key == k }

  predicate MissOf(e: Event, k: CacheKey) { e.Served? && e.op.Miss? && e.op.key == k }

  /** The response of `k` did not fit, or it outlived the sweep of this call and is gone all the same. */
  ghost predicate EntryDropped(s: Store, e: Event, cfg: CacheConfig, t: Store, k: CacheKey) {
    Changes(e) && k !in t.entries && (PutOf(e, k) || k in Retuned(s, cfg, e.limit, e.now).entries)
  }

  /** The counter of `k` did not fit, or it outlived the sweep of this call and is gone or starts over. */
  ghost predicate CountDropped(s: Store, e: Event, cfg: CacheConfig, t: Store, k: CacheKey) {
    && Changes(e) && !PutOf(e, k)
    && var counts := Retuned(s, cfg, e.limit, e.now).counts;
    if MissOf(e, k) then MinUses(cfg) > 1 && !(k in t.counts && t.counts[k] == Counted(counts, k, Ttl(cfg), e.now))
    else k in counts && k !in t.counts
  }

  /** The key was last put before event `m`. */
  predicate NoPutFrom(es: seq<Event>, k: CacheKey, m: nat, n: nat)
    requires n <= |es|
  {
    forall j :: m <= j < n ==> !PutOf(es[j], k)
  }

  /** At event `i`, and no later than the last put of the key, its response was dropped. */
  ghost predicate EntryLost(ss: seq<Store>, es: seq<Event>, cfg: CacheConfig, k: CacheKey, i: nat, n: nat)
    requires n <= |es| < |ss|
  {
    i < n && EntryDropped(ss[i], es[i], cfg, ss[i + 1], k) && NoPutFrom(es, k, i + 1, n)
  }

  ghost predicate ResponseLost(ss: seq<Store>, es: seq<Event>, cfg: CacheConfig, k: CacheKey, n: nat)
    requires n <= |es| < |ss|
  {
    exists i :: EntryLost(ss, es, cfg, k, i, n)
  }

  ghost predicate CountLost(ss: seq<Store>, es: seq<Event>, cfg: CacheConfig, k: CacheKey, i: nat, n: nat)
    requires n <= |es| < |ss|
  {
    i < n && CountDropped(ss[i], es[i], cfg, ss[i + 1], k) && NoPutFrom(es, k, i + 1, n)
  }

  ghost predicate CounterLost(ss: seq<Store>, es: seq<Event>, cfg: CacheConfig, k: CacheKey, n: nat)
    requires n <= |es| < |ss|
  {
    exists i :: CountLost(ss, es, cfg, k, i, n)
  }

  // ---- one event, one key ----

  ghost predicate Tuned(s: Store, cfg: CacheConfig) {
    Within(s) && s.ttl == Ttl(cfg) && s.retention == Retention(cfg)
  }

  lemma SyncTunes(s: Store, cfg: CacheConfig, limit: u64, now: nat, mid: Store)
    requires LimitsSynced(s, cfg, limit, now, mid)
    ensures mid.ttl == Ttl(cfg) && mid.retention == Retention(cfg)
  {
  }

  lemma MissKeepsTimes(mid: Store, k: CacheKey, minUses: nat, now: nat, t: Store, admitted: bool)
    requires MissRecorded(mid, k, minUses, now, t, admitted)
    ensures t.ttl == mid.ttl && t.retention == mid.retention
  {
  }

  lemma PutKeepsTimes(mid: Store, k: CacheKey, r: CachedResponse, t: Store)
    requires PutDone(mid, k, r, t)
    ensures t.ttl == mid.ttl && t.retention == mid.retention
  {
  }

  lemma StepTunes(s: Store, c: Call, t: Store, a: Answer)
    requires StoreStep(s, c, t, a) && s.ttl == Ttl(c.cfg) && s.retention == Retention(c.cfg)
    ensures t.ttl == Ttl(c.cfg) && t.retention == Retention(c.cfg)
  {
    if c.op.Miss? {
      var mid :| LimitsSynced(s, c.cfg, c.limit, c.now, mid)
                 && MissRecorded(mid, c.op.key, MinUses(c.cfg), c.now, t, a.yes);
      SyncTunes(s, c.cfg, c.limit, c.now, mid);
      MissKeepsTimes(mid, c.op.key, MinUses(c.cfg), c.now, t, a.yes);
    } else if c.op.Put? {
      var mid :| LimitsSynced(s, c.cfg, c.limit, c.now, mid) && PutDone(mid, c.op.key, c.op.response, t);
      SyncTunes(s, c.cfg, c.limit, c.now, mid);
      PutKeepsTimes(mid, c.op.key, c.op.response, t);
    }
  }

  lemma StepKeepsTuned(s: Store, e: Event, cfg: CacheConfig, t: Store, a: Answer)
    requires Tuned(s, cfg) && EventStep(s, e, cfg, t, a)
    ensures Tuned(t, cfg)
  {
    match e
    case SweptAt(now) => CacheRuns.SweepKeepsAccount(s, now);
    case Served(op, now, limit) =>
      CacheRuns.StoreStepKeepsBudget(s, Call(op, cfg, now, limit), t, a);
      StepTunes(s, Call(op, cfg, now, limit), t, a);
  }

  /** What is not dropped for want of room is kept as it was, or had expired. */
  lemma StepEntry(s: Store, e: Event, cfg: CacheConfig, t: Store, a: Answer, k: CacheKey)
    requires Tuned(s, cfg) && EventStep(s, e, cfg, t, a)
    ensures k in t.entries && PutOf(e, k) ==> t.entries[k] == e.op.response
    ensures k in t.entries && !PutOf(e, k) ==> k in s.entries && t.entries[k] == s.entries[k]
    ensures k in s.entries && k !in t.entries && !EntryDropped(s, e, cfg, t, k) ==>
              !PutOf(e, k) && Elapsed(e.now, s.entries[k].createdAt) >= Retention(cfg)
  {
    if e.Served? && k in t.entries {
      CacheRuns.StoreStepEntries(s, Call(e.op, cfg, e.now, e.limit), t, a, k);
    }
  }

  lemma MissAnswers(mid: Store, k: CacheKey, minUses: nat, now: nat, t: Store, admitted: bool)
    requires MissRecorded(mid, k, minUses, now, t, admitted) && minUses > 1
    ensures k in t.counts ==> admitted == (t.counts[k].count >= minUses)
  {
  }

  lemma MissKeepsOtherCounts(mid: Store, j: CacheKey, minUses: nat, now: nat, t: Store, admitted: bool, k: CacheKey)
    requires MissRecorded(mid, j, minUses, now, t, admitted) && k != j && k in t.counts
    ensures k in mid.counts && t.counts[k] == mid.counts[k]
  {
    if k in t.counts - {j} { assert (t.counts - {j})[k] == t.counts[k]; }
  }

  lemma PutKeepsOtherCounts(mid: Store, j: CacheKey, r: CachedResponse, t: Store, k: CacheKey)
    requires PutDone(mid, j, r, t) && k in t.counts
    ensures k != j && k in mid.counts && t.counts[k] == mid.counts[k]
  {
    ClearedTables(mid, j);
  }

  /** Counters of other keys change in no call. */
  lemma StepOtherCount(s: Store, e: Event, cfg: CacheConfig, t: Store, a: Answer, k: CacheKey)
    requires Tuned(s, cfg) && EventStep(s, e, cfg, t, a) && !MissOf(e, k) && k in t.counts
    ensures k in s.counts && t.counts[k] == s.counts[k] && !PutOf(e, k)
  {
    if e.Served? && e.op.Miss? {
      var mid :| LimitsSynced(s, cfg, e.limit, e.now, mid)
                 && MissRecorded(mid, e.op.key, MinUses(cfg), e.now, t, a.yes);
      MissKeepsOtherCounts(mid, e.op.key, MinUses(cfg), e.now, t, a.yes, k);
    } else if e.Served? && e.op.Put? {
      var mid :| LimitsSynced(s, cfg, e.limit, e.now, mid) && PutDone(mid, e.op.key, e.op.response, t);
      PutKeepsOtherCounts(mid, e.op.key, e.op.response, t, k);
    }
  }

  lemma StepOtherCountGone(s: Store, e: Event, cfg: CacheConfig, t: Store, a: Answer, k: CacheKey)
    requires Tuned(s, cfg) && EventStep(s, e, cfg, t, a) && !MissOf(e, k) && !PutOf(e, k)
    requires k in s.counts && k !in t.counts && !CountDropped(s, e, cfg, t, k)
    ensures Elapsed(e.now, s.counts[k].lastSeen) >= Ttl(cfg)
  {
  }

  lemma StepOwnMiss(s: Store, e: Event, cfg: CacheConfig, t: Store, a: Answer, k: CacheKey)
    requires Tuned(s, cfg) && EventStep(s, e, cfg, t, a) && MissOf(e, k) && MinUses(cfg) > 1
    requires !CountDropped(s, e, cfg, t, k)
    ensures k in t.counts && t.counts[k] == Counted(Retuned(s, cfg, e.limit, e.now).counts, k, Ttl(cfg), e.now)
    ensures a == Admitted(t.counts[k].count >= MinUses(cfg))
  {
    var mid :| LimitsSynced(s, cfg, e.limit, e.now, mid) && MissRecorded(mid, k, MinUses(cfg), e.now, t, a.yes);
    MissAnswers(mid, k, MinUses(cfg), e.now, t, a.yes);
  }

  // ---- whole runs, key by key ----

  lemma {:induction false} TunedOverEveryRun(ss: seq<Store>, es: seq<Event>, answers: seq<Answer>, cfg: CacheConfig,
                                             n: nat)
    requires StoreRun(ss, es, answers, cfg) && n < |ss|
    ensures Tuned(ss[n], cfg)
  {
    if n > 0 {
      TunedOverEveryRun(ss, es, answers, cfg, n - 1);
      assert StepAt(ss, es, answers, cfg, n - 1);
      StepKeepsTuned(ss[n - 1], es[n - 1], cfg, ss[n], answers[n - 1]);
    }
  }

  lemma PlainStep(es: seq<Event>, cfg: CacheConfig, n: nat)
    requires n < |es|
    ensures PlainAt(es[..n + 1], cfg) == PlainAfter(PlainAt(es[..n], cfg), es[n], cfg)
  {
    assert es[..n + 1][..n] == es[..n];
  }

  lemma EntryLostStays(ss: seq<Store>, es: seq<Event>, cfg: CacheConfig, k: CacheKey, i: nat, n: nat)
    requires n < |es| < |ss| && EntryLost(ss, es, cfg, k, i, n) && !PutOf(es[n], k)
    ensures EntryLost(ss, es, cfg, k, i, n + 1)
  {
  }

  lemma CountLostStays(ss: seq<Store>, es: seq<Event>, cfg: CacheConfig, k: CacheKey, i: nat, n: nat)
    requires n < |es| < |ss| && CountLost(ss, es, cfg, k, i, n) && !PutOf(es[n], k)
    ensures CountLost(ss, es, cfg, k, i, n + 1)
  {
  }

  ghost predicate EntryHeld(s: Store, p: Plain, k: CacheKey) {
    k in s.entries ==> k in p.entries && s.entries[k] == p.entries[k]
  }

  ghost predicate EntryMissing(s: Store, p: Plain, k: CacheKey, cfg: CacheConfig, now: nat) {
    k in p.entries && k !in s.entries && Elapsed(now, p.entries[k].createdAt) < Retention(cfg)
  }

  /** A response held is the latest one; one that is missing before it expired was dropped for want of room. */
  lemma {:induction false} EntriesOverEveryRun(ss: seq<Store>, es: seq<Event>, answers: seq<Answer>, cfg: CacheConfig,
                                               n: nat, k: CacheKey, now: nat)
    requires StoreRun(ss, es, answers, cfg) && n < |ss| && (n > 0 ==> es[n - 1].now <= now)
    ensures EntryHeld(ss[n], PlainAt(es[..n], cfg), k)
    ensures EntryMissing(ss[n], PlainAt(es[..n], cfg), k, cfg, now) ==> ResponseLost(ss, es, cfg, k, n)
  {
    if n > 0 {
      var m, s, e, t := n - 1, ss[n - 1], es[n - 1], ss[n];
      assert m > 0 ==> es[m - 1].now <= e.now;
      EntriesOverEveryRun(ss, es, answers, cfg, m, k, e.now);
      PlainStep(es, cfg, m);
      TunedOverEveryRun(ss, es, answers, cfg, m);
      assert StepAt(ss, es, answers, cfg, m);
      StepEntry(s, e, cfg, t, answers[m], k);
      if EntryMissing(t, PlainAt(es[..n], cfg), k, cfg, now) {
        if EntryDropped(s, e, cfg, t, k) {
          assert EntryLost(ss, es, cfg, k, m, n);
        } else {
          assert !PutOf(e, k) && EntryMissing(s, PlainAt(es[..m], cfg), k, cfg, e.now);
          var i :| EntryLost(ss, es, cfg, k, i, m);
          EntryLostStays(ss, es, cfg, k, i, m);
        }
      }
    }
  }

  /** The counter is that of the reference, or both count from one at the next miss. */
  ghost predicate CountAgrees(s: Store, p: Plain, k: CacheKey, cfg: CacheConfig, now: nat) {
    && (k in s.counts ==> k in p.counts && s.counts[k] == p.counts[k])
    && (k in p.counts && k !in s.counts ==> Elapsed(now, p.counts[k].lastSeen) >= Ttl(cfg))
  }

  /** Whether the sweep of the call took it or not, an agreeing counter is counted as in the reference. */
  lemma CountsAlike(s: Store, p: Plain, k: CacheKey, cfg: CacheConfig, limit: u64, now: nat)
    requires Tuned(s, cfg) && CountAgrees(s, p, k, cfg, now)
    ensures Counted(Retuned(s, cfg, limit, now).counts, k, Ttl(cfg), now) == Counted(p.counts, k, Ttl(cfg), now)
  {
  }

  lemma StepCount(s: Store, e: Event, cfg: CacheConfig, t: Store, a: Answer, p: Plain, k: CacheKey)
    requires Tuned(s, cfg) && EventStep(s, e, cfg, t, a) && MinUses(cfg) > 1 && !CountDropped(s, e, cfg, t, k)
    requires !PutOf(e, k) ==> CountAgrees(s, p, k, cfg, e.now)
    ensures CountAgrees(t, PlainAfter(p, e, cfg), k, cfg, e.now)
  {
    if MissOf(e, k) {
      StepOwnMiss(s, e, cfg, t, a, k);
      CountsAlike(s, p, k, cfg, e.limit, e.now);
    } else {
      if k in t.counts { StepOtherCount(s, e, cfg, t, a, k); }
      if !PutOf(e, k) && k in s.counts && k !in t.counts { StepOtherCountGone(s, e, cfg, t, a, k); }
    }
  }

  /** A counter agrees with the reference unless it was dropped for want of room since the key was last put. */
  lemma {:induction false} CountsOverEveryRun(ss: seq<Store>, es: seq<Event>, answers: seq<Answer>, cfg: CacheConfig,
                                              n: nat, k: CacheKey, now: nat)
    requires StoreRun(ss, es, answers, cfg) && n < |ss| && (n > 0 ==> es[n - 1].now <= now) && MinUses(cfg) > 1
    ensures CountAgrees(ss[n], PlainAt(es[..n], cfg), k, cfg, now) || CounterLost(ss, es, cfg, k, n)
  {
    if n > 0 {
      var m, s, e, t := n - 1, ss[n - 1], es[n - 1], ss[n];
      assert m > 0 ==> es[m - 1].now <= e.now;
      CountsOverEveryRun(ss, es, answers, cfg, m, k, e.now);
      PlainStep(es, cfg, m);
      TunedOverEveryRun(ss, es, answers, cfg, m);
      assert StepAt(ss, es, answers, cfg, m);
      if CountDropped(s, e, cfg, t, k) {
        assert CountLost(ss, es, cfg, k, m, n);
      } else if i :| !PutOf(e, k) && CountLost(ss, es, cfg, k, i, m) {
        CountLostStays(ss, es, cfg, k, i, m);
      } else {
        StepCount(s, e, cfg, t, answers[m], PlainAt(es[..m], cfg), k);
      }
    }
  }

  /** What the reference answered, or the reason why not. */
  ghost predicate Explained(ss: seq<Store>, es: seq<Event>, answers: seq<Answer>, cfg: CacheConfig, n: nat)
    requires n < |es| < |ss| && |answers| == |es|
  {
    || answers[n] == PlainAnswer(PlainAt(es[..n], cfg), es[n], cfg)
    || (&& es[n].Served? && (es[n].op.Get? || es[n].op.GetStale?) && answers[n] == Found(None)
        && ResponseLost(ss, es, cfg, es[n].op.key, n))
    || (es[n].Served? && es[n].op.Miss? && CounterLost(ss, es, cfg, es[n].op.key, n + 1))
  }

  lemma LookupExplained(ss: seq<Store>, es: seq<Event>, answers: seq<Answer>, cfg: CacheConfig, n: nat)
    requires StoreRun(ss, es, answers, cfg) && n < |es| && es[n].Served? && (es[n].op.Get? || es[n].op.GetStale?)
    ensures Explained(ss, es, answers, cfg, n)
  {
    EntriesOverEveryRun(ss, es, answers, cfg, n, es[n].op.key, es[n].now);
    assert StepAt(ss, es, answers, cfg, n);
  }

  lemma MissExplained(ss: seq<Store>, es: seq<Event>, answers: seq<Answer>, cfg: CacheConfig, n: nat)
    requires StoreRun(ss, es, answers, cfg) && n < |es| && es[n].Served? && es[n].op.Miss?
    ensures Explained(ss, es, answers, cfg, n)
  {
    var k, s, e, t, a := es[n].op.key, ss[n], es[n], ss[n + 1], answers[n];
    assert StepAt(ss, es, answers, cfg, n);
    if MinUses(cfg) > 1 {
      CountsOverEveryRun(ss, es, answers, cfg, n, k, e.now);
      TunedOverEveryRun(ss, es, answers, cfg, n);
      if CountDropped(s, e, cfg, t, k) {
        assert CountLost(ss, es, cfg, k, n, n + 1);
      } else if i :| CountLost(ss, es, cfg, k, i, n) {
        CountLostStays(ss, es, cfg, k, i, n);
      } else {
        StepOwnMiss(s, e, cfg, t, a, k);
        CountsAlike(s, PlainAt(es[..n], cfg), k, cfg, e.limit, e.now);
      }
    }
  }

  /**
    * In every run, whatever the limits, clocks and sweeps, each answer is that of the store that never
    * forgets, unless the response, or the counter, of the key asked for was dropped for want of room
    * since the key was last put. No sweep is ever the reason.
    */
  lemma AnswersOverEveryRun(ss: seq<Store>, es: seq<Event>, answers: seq<Answer>, cfg: CacheConfig, n: nat)
    requires StoreRun(ss, es, answers, cfg) && n < |es|
    ensures Explained(ss, es, answers, cfg, n)
  {
    assert StepAt(ss, es, answers, cfg, n);
    if es[n].Served? && (es[n].op.Get? || es[n].op.GetStale?) {
      LookupExplained(ss, es, answers, cfg, n);
    } else if es[n].Served? && es[n].op.Miss? {
      MissExplained(ss, es, answers, cfg, n);
    }
  }

  // ---- with room nothing is dropped ----

  /** With room to spare nothing is evicted. */
  lemma RoomToSpare(s: Store, size: nat, t: Store)
    requires Accounted(s) && RoomMade(s, size, t) && s.currentSize <= s.maxSize - size
    ensures t == s
  {
    if t != s {
      HeldSplit(s, t.entries, t.counts);
      if k :| k in s.counts && k !in t.counts && t.currentSize + CountSize(k, s.counts[k]) > s.maxSize - size {
        WeightWithout(s.counts - t.counts.Keys, k, CountSize);
      } else {
        var k :| k in s.entries && k !in t.entries && t.currentSize + EntrySize(k, s.entries[k]) > s.maxSize - size;
        WeightWithout(s.entries - t.entries.Keys, k, EntrySize);
      }
      assert false;
    }
  }

  lemma MissWithRoom(s: Store, k: CacheKey, minUses: nat, now: nat, t: Store, admitted: bool)
    requires Accounted(s) && MissRecorded(s, k, minUses, now, t, admitted) && minUses > 1 && k !in s.counts
    requires s.currentSize + CountSize(k, MissCount(1, now)) <= s.maxSize
    ensures !admitted
    ensures t == s.(counts := s.counts[k := MissCount(1, now)],
                 currentSize := s.currentSize + CountSize(k, MissCount(1, now)))
  {
    var size := CountSize(k, MissCount(1, now));
    var roomy := BeforeCount(t, k, size);
    RoomToSpare(s, size, roomy);
    assert t.counts == roomy.counts[k := MissCount(1, now)];
  }

  lemma PutWithRoom(s: Store, k: CacheKey, r: CachedResponse, t: Store)
    requires var cleared := WithoutEntry(WithoutCount(s, k), k);
             Accounted(cleared) && PutDone(s, k, r, t) && cleared.currentSize + EntrySize(k, r) <= s.maxSize
    ensures var cleared := WithoutEntry(WithoutCount(s, k), k);
            t == cleared.(entries := cleared.entries[k := r], currentSize := cleared.currentSize + EntrySize(k, r))
  {
    var cleared := WithoutEntry(WithoutCount(s, k), k);
    var roomy := BeforeEntry(t, k, EntrySize(k, r));
    RoomToSpare(cleared, EntrySize(k, r), roomy);
    assert t.entries == roomy.entries[k := r];
  }

  /** What the call stores fits beside what its sweep leaves. */
  ghost predicate Fits(s: Store, e: Event, cfg: CacheConfig) {
    Changes(e) ==>
      var r := Retuned(s, cfg, e.limit, e.now);
      && r.currentSize <= e.limit
      && match e.op
         case Miss(k) => MinUses(cfg) > 1 && k !in r.counts
         ==> r.currentSize + CountSize(k, MissCount(1, e.now)) <= e.limit
         case Put(k, v) => WithoutEntry(WithoutCount(r, k), k).currentSize + EntrySize(k, v) <= e.limit
         case _ => true
  }

  lemma RetunedAccount(s: Store, cfg: CacheConfig, limit: u64, now: nat)
    requires Tuned(s, cfg)
    ensures Accounted(Retuned(s, cfg, limit, now))
  {
    CacheRuns.SweepKeepsAccount(s.(maxSize := limit), now);
  }

  lemma MissDropsNothing(s: Store, e: Event, cfg: CacheConfig, t: Store, a: Answer, k: CacheKey)
    requires Tuned(s, cfg) && EventStep(s, e, cfg, t, a) && Fits(s, e, cfg) && e.Served? && e.op.Miss?
    ensures !EntryDropped(s, e, cfg, t, k) && !CountDropped(s, e, cfg, t, k)
  {
    var r := Retuned(s, cfg, e.limit, e.now);
    var mid :| LimitsSynced(s, cfg, e.limit, e.now, mid) && MissRecorded(mid, e.op.key, MinUses(cfg), e.now, t, a.yes);
    RetunedAccount(s, cfg, e.limit, e.now);
    RoomToSpare(r, 0, mid);
    if MinUses(cfg) > 1 && e.op.key !in r.counts {
      MissWithRoom(r, e.op.key, MinUses(cfg), e.now, t, a.yes);
    }
  }

  lemma PutDropsNothing(s: Store, e: Event, cfg: CacheConfig, t: Store, a: Answer, k: CacheKey)
    requires Tuned(s, cfg) && EventStep(s, e, cfg, t, a) && Fits(s, e, cfg) && e.Served? && e.op.Put?
    ensures !EntryDropped(s, e, cfg, t, k) && !CountDropped(s, e, cfg, t, k)
  {
    var r := Retuned(s, cfg, e.limit, e.now);
    var mid :| LimitsSynced(s, cfg, e.limit, e.now, mid) && PutDone(mid, e.op.key, e.op.response, t);
    RetunedAccount(s, cfg, e.limit, e.now);
    RoomToSpare(r, 0, mid);
    CacheRuns.ClearedAccount(r, e.op.key);
    PutWithRoom(r, e.op.key, e.op.response, t);
    ClearedTables(r, e.op.key);
  }

  lemma FittingDropsNothing(ss: seq<Store>, es: seq<Event>, answers: seq<Answer>, cfg: CacheConfig, i: nat, k: CacheKey)
    requires StoreRun(ss, es, answers, cfg) && i < |es| && Fits(ss[i], es[i], cfg)
    ensures !EntryDropped(ss[i], es[i], cfg, ss[i + 1], k) && !CountDropped(ss[i], es[i], cfg, ss[i + 1], k)
  {
    assert StepAt(ss, es, answers, cfg, i);
    TunedOverEveryRun(ss, es, answers, cfg, i);
    if es[i].Served? && es[i].op.Miss? {
      MissDropsNothing(ss[i], es[i], cfg, ss[i + 1], answers[i], k);
    } else if es[i].Served? && es[i].op.Put? {
      PutDropsNothing(ss[i], es[i], cfg, ss[i + 1], answers[i], k);
    }
  }

  /**
    * As long as each call fits beside what the sweeps leave, however much was stored before, the sweeping
    * store answers every lookup and every admission question as the store that never forgets.
    */
  lemma SweepsInvisibleOverEveryRun(ss: seq<Store>, es: seq<Event>, answers: seq<Answer>, cfg: CacheConfig, n: nat)
    requires StoreRun(ss, es, answers, cfg) && n < |es| && forall i :: 0 <= i <= n ==> Fits(ss[i], es[i], cfg)
    ensures answers[n] == PlainAnswer(PlainAt(es[..n], cfg), es[n], cfg)
  {
    AnswersOverEveryRun(ss, es, answers, cfg, n);
    if es[n].Served? {
      NothingLost(ss, es, answers, cfg, n, es[n].op.key);
    }
  }

  lemma NothingLost(ss: seq<Store>, es: seq<Event>, answers: seq<Answer>, cfg: CacheConfig, n: nat, k: CacheKey)
    requires StoreRun(ss, es, answers, cfg) && n < |es| && forall i :: 0 <= i <= n ==> Fits(ss[i], es[i], cfg)
    ensures !ResponseLost(ss, es, cfg, k, n) && !CounterLost(ss, es, cfg, k, n + 1)
  {
    if ResponseLost(ss, es, cfg, k, n) {
      var i :| EntryLost(ss, es, cfg, k, i, n);
      FittingDropsNothing(ss, es, answers, cfg, i, k);
      assert false;
    }
    var next := n + 1;
    if CounterLost(ss, es, cfg, k, next) {
      var i :| CountLost(ss, es, cfg, k, i, next);
      FittingDropsNothing(ss, es, answers, cfg, i, k);
      assert false;
    }
  }
}

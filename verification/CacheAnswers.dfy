/** What one location answers, said by the puts and misses of the key alone. */
module CacheAnswers {
  import opened Common
  import opened CacheStore
  import opened CacheSweeps

  // ---- lookups ----

  /** The last put of the key before event `n` is event `j`. */
  predicate LastPutAt(es: seq<Event>, k: CacheKey, j: nat, n: nat)
    requires n <= |es|
  {
    j < n && PutOf(es[j], k) && NoPutFrom(es, k, j + 1, n)
  }

  predicate HasEntry(p: Plain, k: CacheKey, r: CachedResponse) { k in p.entries && p.entries[k] == r }

  /** The reference holds what was last put, if anything was. */
  lemma {:induction false} PlainHolds(es: seq<Event>, cfg: CacheConfig, n: nat, k: CacheKey)
    requires n <= |es|
    ensures forall j: nat :: LastPutAt(es, k, j, n) ==> HasEntry(PlainAt(es[..n], cfg), k, es[j].op.response)
    ensures NoPutFrom(es, k, 0, n) ==> k !in PlainAt(es[..n], cfg).entries
  {
    if n > 0 {
      PlainHolds(es, cfg, n - 1, k);
      PlainStep(es, cfg, n - 1);
      forall j: nat | LastPutAt(es, k, j, n) ensures HasEntry(PlainAt(es[..n], cfg), k, es[j].op.response)
      {
        if j < n - 1 { assert LastPutAt(es, k, j, n - 1); }
      }
    }
  }

  /** A response dropped for want of room stays away until the next put. */
  lemma {:induction false} LostIsAway(ss: seq<Store>, es: seq<Event>, answers: seq<Answer>, cfg: CacheConfig,
                                      k: CacheKey, i: nat, n: nat)
    requires StoreRun(ss, es, answers, cfg) && n <= |es| && EntryLost(ss, es, cfg, k, i, n)
    ensures k !in ss[n].entries
  {
    if i + 1 < n {
      LostIsAway(ss, es, answers, cfg, k, i, n - 1);
      TunedOverEveryRun(ss, es, answers, cfg, n - 1);
      assert StepAt(ss, es, answers, cfg, n - 1);
      StepEntry(ss[n - 1], es[n - 1], cfg, ss[n], answers[n - 1], k);
    }
  }

  predicate HeldAt(r: CachedResponse, now: nat, cfg: CacheConfig) { Elapsed(now, r.createdAt) < Retention(cfg) }

  /** What the location holds for a key: its last put, unless that expired long ago or was dropped for want of room. */
  lemma HoldsLastPut(ss: seq<Store>, es: seq<Event>, answers: seq<Answer>, cfg: CacheConfig, n: nat, k: CacheKey)
    requires StoreRun(ss, es, answers, cfg) && n < |es|
    ensures k in ss[n].entries ==> exists j: nat :: LastPutAt(es, k, j, n) && ss[n].entries[k] == es[j].op.response
    ensures ResponseLost(ss, es, cfg, k, n) ==> k !in ss[n].entries
    ensures forall j: nat :: LastPutAt(es, k, j, n) && HeldAt(es[j].op.response, es[n].now, cfg) ==>
                               k in ss[n].entries || ResponseLost(ss, es, cfg, k, n)
  {
    PlainHolds(es, cfg, n, k);
    EntriesOverEveryRun(ss, es, answers, cfg, n, k, es[n].now);
    if k in ss[n].entries {
      var j := LastPut(es, k, n);
    }
    if ResponseLost(ss, es, cfg, k, n) {
      var i: nat :| EntryLost(ss, es, cfg, k, i, n);
      LostIsAway(ss, es, answers, cfg, k, i, n);
    }
  }

  lemma {:induction false} LastPut(es: seq<Event>, k: CacheKey, n: nat) returns (j: nat)
    requires n <= |es| && !NoPutFrom(es, k, 0, n)
    ensures LastPutAt(es, k, j, n)
  {
    if PutOf(es[n - 1], k) {
      j := n - 1;
    } else {
      j := LastPut(es, k, n - 1);
    }
  }

  /** Still younger than `age`. */
  predicate Younger(r: CachedResponse, now: nat, age: nat) { age > 0 && now < r.createdAt + age }

  /** The response a lookup finds: the last put of the key, kept for want of nothing and younger than `age`. */
  ghost predicate Due(ss: seq<Store>, es: seq<Event>, cfg: CacheConfig, k: CacheKey, n: nat, age: nat,
                      r: CachedResponse)
    requires n < |es| < |ss|
  {
    && (exists j: nat :: LastPutAt(es, k, j, n) && r == es[j].op.response)
    && !ResponseLost(ss, es, cfg, k, n) && Younger(r, es[n].now, age)
  }

  lemma FindsExactly(ss: seq<Store>, es: seq<Event>, answers: seq<Answer>, cfg: CacheConfig, n: nat, k: CacheKey,
                     age: nat, r: CachedResponse)
    requires StoreRun(ss, es, answers, cfg) && n < |es| && age <= Retention(cfg)
    ensures Find(ss[n].entries, k, es[n].now, age) == Some(r) <==> Due(ss, es, cfg, k, n, age, r)
  {
    HoldsLastPut(ss, es, answers, cfg, n, k);
    if Due(ss, es, cfg, k, n, age, r) {
      var j: nat :| LastPutAt(es, k, j, n) && r == es[j].op.response;
      assert k in ss[n].entries;
      var i: nat :| LastPutAt(es, k, i, n) && ss[n].entries[k] == es[i].op.response;
      assert i == j;
    }
  }

  /**
    * In every run a lookup finds a response exactly when it is the last one put under the key, it was not
    * dropped for want of room, and it is younger than the ttl, sixty seconds if the config has none.
    */
  lemma GetExactly(ss: seq<Store>, es: seq<Event>, answers: seq<Answer>, cfg: CacheConfig, n: nat, k: CacheKey,
                   r: CachedResponse)
    requires StoreRun(ss, es, answers, cfg) && n < |es| && es[n].Served? && es[n].op == Get(k)
    ensures var ttl := if cfg.ttl.Some? then cfg.ttl.value else 60 * NANOS;
            answers[n] == Found(Some(r)) <==> Due(ss, es, cfg, k, n, ttl, r)
    ensures answers[n].Found?
  {
    assert StepAt(ss, es, answers, cfg, n);
    FindsExactly(ss, es, answers, cfg, n, k, Ttl(cfg), r);
  }

  /**
    * And a stale lookup finds it exactly when the config has a stale period and it is younger than the ttl
    * and that period together, or than the longest duration there is.
    */
  lemma GetStaleExactly(ss: seq<Store>, es: seq<Event>, answers: seq<Answer>, cfg: CacheConfig, n: nat, k: CacheKey,
                        r: CachedResponse)
    requires StoreRun(ss, es, answers, cfg) && n < |es| && es[n].Served? && es[n].op == GetStale(k)
    ensures var ttl := if cfg.ttl.Some? then cfg.ttl.value else 60 * NANOS;
            answers[n] == Found(Some(r)) <==>
            cfg.staleIfError.Some? && Due(ss, es, cfg, k, n, Min(ttl + cfg.staleIfError.value, DURATION_MAX), r)
    ensures answers[n].Found?
  {
    assert StepAt(ss, es, answers, cfg, n);
    FindsExactly(ss, es, answers, cfg, n, k, Retention(cfg), r);
  }

  function Min(a: nat, b: nat): nat { if a <= b then a else b }

  // ---- admission ----

  /** Misses of the key from event `m` to before event `n`. */
  function Misses(es: seq<Event>, k: CacheKey, m: nat, n: nat): nat
    requires m <= n <= |es|
    decreases n - m
  {
    if m == n then 0 else Misses(es, k, m, n - 1) + (if MissOf(es[n - 1], k) then 1 else 0)
  }

  predicate NoMissFrom(es: seq<Event>, k: CacheKey, m: nat, n: nat)
    requires n <= |es|
  {
    forall j :: m <= j < n ==> !MissOf(es[j], k)
  }

  /** Event `j` is the next miss of the key after event `i`. */
  predicate NextMiss(es: seq<Event>, k: CacheKey, i: nat, j: nat) {
    i < j < |es| && MissOf(es[i], k) && MissOf(es[j], k) && NoMissFrom(es, k, i + 1, j)
  }

  /** From event `m` to before event `n` the key was not put, and no gap of a ttl lies between two misses of it. */
  ghost predicate Unbroken(es: seq<Event>, k: CacheKey, ttl: nat, m: nat, n: nat)
    requires n <= |es|
  {
    && m <= n && NoPutFrom(es, k, m, n)
    && forall i: nat, j: nat :: m <= i && j < n && NextMiss(es, k, i, j) ==> es[j].now - es[i].now < ttl
  }

  lemma {:induction false} NoMisses(es: seq<Event>, k: CacheKey, m: nat, n: nat)
    requires m <= n <= |es|
    ensures Misses(es, k, m, n) == 0 <==> NoMissFrom(es, k, m, n)
    decreases n - m
  {
    if m < n {
      NoMisses(es, k, m, n - 1);
      if NoMissFrom(es, k, m, n) { assert NoMissFrom(es, k, m, n - 1); }
    }
  }

  /** The counter counts the unbroken misses since event `m`, the last of them event `l`, and no more are unbroken. */
  ghost predicate Counts(es: seq<Event>, k: CacheKey, ttl: nat, n: nat, c: MissCount, m: nat, l: nat)
    requires n <= |es|
  {
    && m <= l < n && Unbroken(es, k, ttl, m, n) && c.count == Capped(Misses(es, k, m, n))
    && MissOf(es[l], k) && NoMissFrom(es, k, l + 1, n) && c.lastSeen == es[l].now
    && AtMost(es, k, ttl, n, Misses(es, k, m, n))
  }

  ghost predicate CountedTo(es: seq<Event>, k: CacheKey, ttl: nat, n: nat, c: MissCount)
    requires n <= |es|
  {
    exists m: nat, l: nat :: Counts(es, k, ttl, n, c, m, l)
  }

  ghost predicate AtMost(es: seq<Event>, k: CacheKey, ttl: nat, n: nat, count: nat)
    requires n <= |es|
  {
    forall m: nat :: m <= n && Unbroken(es, k, ttl, m, n) ==> Misses(es, k, m, n) <= count
  }

  function Capped(n: nat): u64 { if n <= U64_MAX then n else U64_MAX }

  /** The counter of the reference, if there is one, counts unbroken misses; if there is none there are none. */
  ghost predicate Tallied(es: seq<Event>, k: CacheKey, ttl: nat, n: nat, counts: map<CacheKey, MissCount>)
    requires n <= |es|
  {
    if k in counts then CountedTo(es, k, ttl, n, counts[k]) else AtMost(es, k, ttl, n, 0)
  }

  predicate Ordered(es: seq<Event>) { forall i, j :: 0 <= i <= j < |es| ==> es[i].now <= es[j].now }

  lemma UnbrokenFront(es: seq<Event>, k: CacheKey, ttl: nat, m: nat, n: nat)
    requires n < |es| && Unbroken(es, k, ttl, m, n + 1) && m <= n
    ensures Unbroken(es, k, ttl, m, n)
  {
  }

  /** An event that is no miss and no put of the key changes nothing. */
  lemma QuietTally(es: seq<Event>, k: CacheKey, ttl: nat, n: nat, counts: map<CacheKey, MissCount>)
    requires n < |es| && Tallied(es, k, ttl, n, counts) && !MissOf(es[n], k) && !PutOf(es[n], k)
    ensures Tallied(es, k, ttl, n + 1, counts)
  {
    var end := n + 1;
    var top := if k in counts then Longest(es, k, ttl, n, counts) else 0;
    forall m: nat | m <= end && Unbroken(es, k, ttl, m, end) ensures Misses(es, k, m, end) <= top {
      if m <= n { UnbrokenFront(es, k, ttl, m, n); }
    }
    assert AtMost(es, k, ttl, n + 1, top);
    if k in counts {
      var m: nat, l: nat :| Counts(es, k, ttl, n, counts[k], m, l) && Misses(es, k, m, n) == top;
      assert Counts(es, k, ttl, n + 1, counts[k], m, l);
    }
  }

  ghost function Longest(es: seq<Event>, k: CacheKey, ttl: nat, n: nat, counts: map<CacheKey, MissCount>): (top: nat)
    requires n <= |es| && Tallied(es, k, ttl, n, counts) && k in counts
    ensures exists m: nat, l: nat :: Counts(es, k, ttl, n, counts[k], m, l) && Misses(es, k, m, n) == top
  {
    var m: nat, l: nat :| Counts(es, k, ttl, n, counts[k], m, l);
    Misses(es, k, m, n)
  }

  /** A put starts over. */
  lemma PutTally(es: seq<Event>, k: CacheKey, ttl: nat, n: nat)
    requires n < |es| && PutOf(es[n], k)
    ensures AtMost(es, k, ttl, n + 1, 0)
  {
    var end := n + 1;
    forall m: nat | m <= end && Unbroken(es, k, ttl, m, end) ensures Misses(es, k, m, end) <= 0 {
      assert m == n + 1;
    }
  }

  /** The first miss, or the first after a gap. */
  lemma FirstTally(es: seq<Event>, k: CacheKey, ttl: nat, n: nat)
    requires n < |es| && MissOf(es[n], k)
    requires forall m: nat :: m <= n && Unbroken(es, k, ttl, m, n + 1) ==> Misses(es, k, m, n) == 0
    ensures Counts(es, k, ttl, n + 1, MissCount(1, es[n].now), n, n)
  {
    var end := n + 1;
    assert Misses(es, k, n, n) == 0 && Misses(es, k, n, end) == 1;
    forall m: nat | m <= end && Unbroken(es, k, ttl, m, end) ensures Misses(es, k, m, end) <= 1 {
    }
  }

  lemma AfterGap(es: seq<Event>, k: CacheKey, ttl: nat, n: nat, l: nat, m: nat)
    requires n < |es| && MissOf(es[n], k) && l < n && MissOf(es[l], k) && NoMissFrom(es, k, l + 1, n)
    requires es[n].now - es[l].now >= ttl && m <= n && Unbroken(es, k, ttl, m, n + 1)
    ensures Misses(es, k, m, n) == 0
  {
    assert NextMiss(es, k, l, n);
    assert l < m;
    NoMisses(es, k, m, n);
  }

  /** One more without a gap. */
  lemma NextTally(es: seq<Event>, k: CacheKey, ttl: nat, n: nat, c: MissCount, m: nat, l: nat)
    requires n < |es| && MissOf(es[n], k) && Counts(es, k, ttl, n, c, m, l) && es[n].now - es[l].now < ttl
    ensures Counts(es, k, ttl, n + 1, MissCount(SatAdd(c.count, 1), es[n].now), m, n)
  {
    forall i: nat, j: nat | m <= i && j < n + 1 && NextMiss(es, k, i, j) ensures es[j].now - es[i].now < ttl {
      if j == n { assert i == l; }
    }
    var top, end := Misses(es, k, m, n), n + 1;
    forall b: nat | b <= end && Unbroken(es, k, ttl, b, end) ensures Misses(es, k, b, end) <= top + 1 {
      if b <= n { UnbrokenFront(es, k, ttl, b, n); }
    }
  }

  lemma MissTally(es: seq<Event>, k: CacheKey, ttl: nat, n: nat, counts: map<CacheKey, MissCount>)
    requires n < |es| && Ordered(es) && Tallied(es, k, ttl, n, counts) && MissOf(es[n], k)
    ensures CountedTo(es, k, ttl, n + 1, Counted(counts, k, ttl, es[n].now))
  {
    if k !in counts {
      forall m | 0 <= m <= n && Unbroken(es, k, ttl, m, n + 1) ensures Misses(es, k, m, n) == 0 {
        UnbrokenFront(es, k, ttl, m, n);
      }
      FirstTally(es, k, ttl, n);
    } else {
      var m: nat, l: nat :| Counts(es, k, ttl, n, counts[k], m, l);
      assert es[l].now <= es[n].now;
      if es[n].now - es[l].now < ttl {
        NextTally(es, k, ttl, n, counts[k], m, l);
      } else {
        forall b | 0 <= b <= n && Unbroken(es, k, ttl, b, n + 1) ensures Misses(es, k, b, n) == 0 {
          AfterGap(es, k, ttl, n, l, b);
        }
        FirstTally(es, k, ttl, n);
      }
    }
  }

  lemma {:induction false} TalliedAt(es: seq<Event>, cfg: CacheConfig, n: nat, k: CacheKey)
    requires n <= |es| && Ordered(es) && MinUses(cfg) > 1
    ensures Tallied(es, k, Ttl(cfg), n, PlainAt(es[..n], cfg).counts)
  {
    if n > 0 {
      TalliedAt(es, cfg, n - 1, k);
      PlainStep(es, cfg, n - 1);
      var before, after := PlainAt(es[..n - 1], cfg).counts, PlainAt(es[..n], cfg).counts;
      if PutOf(es[n - 1], k) {
        PutTally(es, k, Ttl(cfg), n - 1);
      } else if MissOf(es[n - 1], k) {
        MissTally(es, k, Ttl(cfg), n - 1, before);
      } else {
        QuietTally(es, k, Ttl(cfg), n - 1, before);
        assert k in after <==> k in before;
      }
    }
  }

  /** Before event `n` come so many misses of the key without a put of it or a gap of a ttl in between. */
  ghost predicate Enough(es: seq<Event>, k: CacheKey, ttl: nat, n: nat, uses: nat)
    requires n <= |es|
  {
    exists m: nat :: m <= n && Unbroken(es, k, ttl, m, n) && Misses(es, k, m, n) >= uses
  }

  lemma CountedEnough(es: seq<Event>, k: CacheKey, ttl: nat, n: nat, c: MissCount, m: nat, l: nat, uses: u64)
    requires n < |es| && Counts(es, k, ttl, n + 1, c, m, l) && MissOf(es[n], k)
    ensures c.count >= uses <==> Enough(es, k, ttl, n + 1, uses)
  {
  }

  lemma OneIsEnough(es: seq<Event>, k: CacheKey, ttl: nat, n: nat, uses: nat)
    requires n < |es| && MissOf(es[n], k) && uses <= 1
    ensures Enough(es, k, ttl, n + 1, uses)
  {
    var end := n + 1;
    assert Misses(es, k, n, n) == 0 && Misses(es, k, n, end) == 1 && Unbroken(es, k, ttl, n, end);
  }

  /**
    * In every run a miss is admitted exactly when it is at least the `min_uses`-th of the key without a put
    * of the key or a gap of a ttl in between, unless the counter was dropped for want of room.
    */
  lemma AdmitsExactly(ss: seq<Store>, es: seq<Event>, answers: seq<Answer>, cfg: CacheConfig, n: nat, k: CacheKey)
    requires StoreRun(ss, es, answers, cfg) && n < |es| && MissOf(es[n], k) && !CounterLost(ss, es, cfg, k, n + 1)
    ensures var ttl := if cfg.ttl.Some? then cfg.ttl.value else 60 * NANOS;
            var uses := if cfg.minUses.Some? then cfg.minUses.value else 1;
            answers[n] == Admitted(Enough(es, k, ttl, n + 1, uses))
  {
    AnswersOverEveryRun(ss, es, answers, cfg, n);
    if MinUses(cfg) <= 1 {
      OneIsEnough(es, k, Ttl(cfg), n, MinUses(cfg));
    } else {
      TalliedAt(es, cfg, n, k);
      var counts := PlainAt(es[..n], cfg).counts;
      MissTally(es, k, Ttl(cfg), n, counts);
      var c := Counted(counts, k, Ttl(cfg), es[n].now);
      var m: nat, l: nat :| Counts(es, k, Ttl(cfg), n + 1, c, m, l);
      CountedEnough(es, k, Ttl(cfg), n, c, m, l, MinUses(cfg));
    }
  }
}

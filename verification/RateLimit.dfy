/** The per-address, per-second request limiter with its lazy sweep. */
module RateLimit {
  import opened Common

  const BUCKET_TTL_SECS: nat := 120
  const SWEEP_INTERVAL: nat := 1024

  datatype Bucket = Bucket(window: nat, count: u32, lastSeen: nat)

  function SatInc(n: u32): u32 { if n < U32_MAX then n + 1 else n }

  function Hit(buckets: map<IpAddr, Bucket>, ip: IpAddr, window: nat): Bucket {
    var count := if ip in buckets && buckets[ip].window == window then buckets[ip].count else 0;
    Bucket(window, SatInc(count), window)
  }

  function Swept(buckets: map<IpAddr, Bucket>, window: nat): map<IpAddr, Bucket> {
    map ip | ip in buckets && buckets[ip].lastSeen >= SatSub(window, BUCKET_TTL_SECS) :: buckets[ip]
  }

  /** `RateLimitPlugin`: the bucket table and the request counter, both changed in place. */
  class Limiter {
    const limit: u32
    var buckets: map<IpAddr, Bucket>
    var requestsSinceSweep: u64
    ghost var events: seq<Event>

    /** The table is what the calls so far leave. */
    ghost predicate Valid()
      reads this
    {
      buckets == BucketsAfter(events)
    }

    constructor (limit: u32)
      ensures Valid() && this.limit == limit && events == [] && requestsSinceSweep == 0
    {
      this.limit := limit;
      events := [];
      buckets := map[];
      requestsSinceSweep := 0;
    }

    method Retain(oldest: nat)
      modifies this`buckets
      ensures buckets == map ip | ip in old(buckets) && old(buckets)[ip].lastSeen >= oldest :: old(buckets)[ip]
    {
      ghost var was := buckets;
      var todo := buckets.Keys;
      while todo != {}
        invariant todo <= buckets.Keys <= was.Keys
        invariant forall ip :: ip in buckets ==> buckets[ip] == was[ip]
        invariant forall ip :: ip in buckets && ip !in todo ==> was[ip].lastSeen >= oldest
        invariant forall ip :: ip in was && ip !in buckets ==> was[ip].lastSeen < oldest
        decreases |todo|
      {
        var ip :| ip in todo;
        todo := todo - {ip};
        if buckets[ip].lastSeen < oldest {
          buckets := buckets - {ip};
        }
      }
    }

    method MaybeSweep(window: nat)
      requires Valid()
      modifies this`buckets, this`requestsSinceSweep, this`events
      ensures Valid() && requestsSinceSweep == (old(requestsSinceSweep) + 1) % (U64_MAX + 1)
      ensures events == old(events) + if requestsSinceSweep % SWEEP_INTERVAL == 0 then [Sweep(window)] else []
    {
      requestsSinceSweep := (requestsSinceSweep + 1) % (U64_MAX + 1);
      if requestsSinceSweep % SWEEP_INTERVAL != 0 {
        return;
      }
      Retain(SatSub(window, BUCKET_TTL_SECS));
      OneMoreEvent(events, Sweep(window));
      events := events + [Sweep(window)];
    }

    method AllowRequest(ip: IpAddr, window: nat) returns (allowed: bool)
      requires Valid()
      modifies this`buckets, this`requestsSinceSweep, this`events
      ensures Valid() && requestsSinceSweep == (old(requestsSinceSweep) + 1) % (U64_MAX + 1)
      ensures allowed == Allowed(old(events), ip, window, limit)
      ensures events == old(events) + [Request(ip, window)]
                        + if requestsSinceSweep % SWEEP_INTERVAL == 0 then [Sweep(window)] else []
    {
      var bucket := if ip in buckets then buckets[ip] else Bucket(window, 0, window);
      if bucket.window != window {
        bucket := Bucket(window, 0, window);
      }
      bucket := Bucket(window, SatInc(bucket.count), window);
      buckets := buckets[ip := bucket];
      allowed := bucket.count <= limit;
      OneMoreEvent(events, Request(ip, window));
      events := events + [Request(ip, window)];
      MaybeSweep(window);
    }
  }

  // ---- whole runs ----

  /** The two lock regions of a request: counting it, and later perhaps sweeping with its window. */
  datatype Event = Request(ip: IpAddr, window: nat) | Sweep(window: nat)

  function AfterEvent(buckets: map<IpAddr, Bucket>, e: Event): map<IpAddr, Bucket> {
    match e
    case Request(ip, window) => buckets[ip := Hit(buckets, ip, window)]
    case Sweep(window) => Swept(buckets, window)
  }

  function BucketsAfter(events: seq<Event>): map<IpAddr, Bucket> {
    if events == [] then map[] else AfterEvent(BucketsAfter(events[..|events| - 1]), events[|events| - 1])
  }

  lemma OneMoreEvent(events: seq<Event>, e: Event)
    ensures BucketsAfter(events + [e]) == AfterEvent(BucketsAfter(events), e)
  {
    assert (events + [e])[..|events|] == events;
  }

  function Allowed(events: seq<Event>, ip: IpAddr, window: nat, limit: u32): bool {
    Hit(BucketsAfter(events), ip, window).count <= limit
  }

  /** The specification: how often the address was counted in that window before. */
  function Earlier(events: seq<Event>, ip: IpAddr, window: nat): nat {
    if events == [] then 0
    else Earlier(events[..|events| - 1], ip, window) + (if events[|events| - 1] == Request(ip, window) then 1 else 0)
  }

  function Latest(events: seq<Event>): nat {
    if events == [] then 0
    else
      var before := Latest(events[..|events| - 1]);
      var last := events[|events| - 1];
      if last.Request? && last.window > before then last.window else before
  }

  /** Windows of counted requests never go back; a sweep uses the window of a request already counted. */
  predicate Orderly(events: seq<Event>) {
    if events == [] then true
    else
      var before := events[..|events| - 1];
      var last := events[|events| - 1];
      Orderly(before) && (if last.Request? then Latest(before) <= last.window else last.window <= Latest(before))
  }

  function Capped(n: nat): u32 { if n <= U32_MAX then n else U32_MAX }

  /** What makes the limiter forget an address in a window: its request in another window, or a sweep from far ahead. */
  predicate Interrupts(e: Event, ip: IpAddr, window: nat) {
    if e.Request? then e.ip == ip && e.window != window else window < SatSub(e.window, BUCKET_TTL_SECS)
  }

  /** Requests of the address in that window since it was last forgotten. */
  function Streak(events: seq<Event>, ip: IpAddr, window: nat): nat {
    if events == [] then 0
    else if Interrupts(events[|events| - 1], ip, window) then 0
    else Streak(events[..|events| - 1], ip, window) + (if events[|events| - 1] == Request(ip, window) then 1 else 0)
  }

  /** Something made the limiter forget a request of the address in that window. */
  predicate Interrupted(events: seq<Event>, ip: IpAddr, window: nat) {
    exists i, j :: 0 <= i < j < |events| && events[i] == Request(ip, window) && Interrupts(events[j], ip, window)
  }

  /** In whatever order requests and sweeps come, the table holds the streaks, saturated. */
  lemma {:induction false} TableHoldsStreaks(events: seq<Event>, ip: IpAddr, window: nat)
    ensures var buckets := BucketsAfter(events);
            && (Streak(events, ip, window) > 0 <==> ip in buckets && buckets[ip].window == window)
            && (ip in buckets && buckets[ip].window == window ==>
                  buckets[ip].count == Capped(Streak(events, ip, window)) && buckets[ip].lastSeen == window)
  {
    if events != [] {
      TableHoldsStreaks(events[..|events| - 1], ip, window);
    }
  }

  lemma AllowsByStreak(events: seq<Event>, ip: IpAddr, window: nat, limit: u32)
    ensures Allowed(events, ip, window, limit) <==> Streak(events, ip, window) < limit || limit == U32_MAX
  {
    TableHoldsStreaks(events, ip, window);
  }

  lemma {:induction false} EarlierPositive(events: seq<Event>, ip: IpAddr, window: nat)
    ensures Earlier(events, ip, window) > 0 <==> Request(ip, window) in events
  {
    if events != [] {
      EarlierPositive(events[..|events| - 1], ip, window);
      assert events == events[..|events| - 1] + [events[|events| - 1]];
    }
  }

  lemma InterruptedFront(before: seq<Event>, last: Event, ip: IpAddr, window: nat)
    ensures Interrupted(before + [last], ip, window)
       <==> Interrupted(before, ip, window) || (Interrupts(last, ip, window) && Request(ip, window) in before)
  {
    var events := before + [last];
    if Interrupted(before, ip, window) {
      var i, j :| 0 <= i < j < |before| && before[i] == Request(ip, window) && Interrupts(before[j], ip, window);
      assert events[i] == before[i] && events[j] == before[j];
    }
    if Interrupts(last, ip, window) && Request(ip, window) in before {
      var i :| 0 <= i < |before| && before[i] == Request(ip, window);
      assert events[i] == before[i] && events[|before|] == last;
    }
    if Interrupted(events, ip, window) {
      var i, j :| 0 <= i < j < |events| && events[i] == Request(ip, window) && Interrupts(events[j], ip, window);
      assert events[i] == before[i] && (j < |before| ==> events[j] == before[j]);
    }
  }

  /** The streak is the whole count exactly when nothing was forgotten. */
  lemma {:induction false} StreakIsEarlier(events: seq<Event>, ip: IpAddr, window: nat)
    ensures Streak(events, ip, window) <= Earlier(events, ip, window)
    ensures Streak(events, ip, window) == Earlier(events, ip, window) <==> !Interrupted(events, ip, window)
  {
    if events != [] {
      var before, last := events[..|events| - 1], events[|events| - 1];
      assert events == before + [last];
      StreakIsEarlier(before, ip, window);
      EarlierPositive(before, ip, window);
      InterruptedFront(before, last, ip, window);
    }
  }

  /**
    * In any order of requests and sweeps, as long as nothing interrupted it, a request is allowed exactly
    * when fewer than `limit` requests of its address were counted in its window before; only the limit
    * `u32::MAX` lets saturation show, and then everything is allowed.
    */
  lemma AllowsExactly(events: seq<Event>, ip: IpAddr, window: nat, limit: u32)
    requires !Interrupted(events, ip, window)
    ensures Allowed(events, ip, window, limit) <==> Earlier(events, ip, window) < limit || limit == U32_MAX
  {
    AllowsByStreak(events, ip, window, limit);
    StreakIsEarlier(events, ip, window);
  }

  /** And only then: after an interruption some limit lets one request too many through. */
  lemma InterruptionShows(events: seq<Event>, ip: IpAddr, window: nat) returns (limit: u32)
    requires Interrupted(events, ip, window) && Earlier(events, ip, window) < U32_MAX
    ensures limit < U32_MAX && limit <= Earlier(events, ip, window) && Allowed(events, ip, window, limit)
  {
    StreakIsEarlier(events, ip, window);
    limit := Streak(events, ip, window) + 1;
    AllowsByStreak(events, ip, window, limit);
  }

  lemma {:induction false} WindowsUpToLatest(events: seq<Event>, j: nat)
    requires Orderly(events) && j < |events|
    ensures events[j].window <= Latest(events)
  {
    if j < |events| - 1 {
      WindowsUpToLatest(events[..|events| - 1], j);
    }
  }

  /** Nothing is interrupted in the latest window while windows come in order. */
  lemma {:induction false} OrderlyIsUninterrupted(events: seq<Event>, ip: IpAddr, window: nat)
    requires Orderly(events) && Latest(events) <= window
    ensures !Interrupted(events, ip, window)
  {
    if events != [] {
      var before, last := events[..|events| - 1], events[|events| - 1];
      assert events == before + [last];
      OrderlyIsUninterrupted(before, ip, window);
      InterruptedFront(before, last, ip, window);
      if Request(ip, window) in before {
        var i :| 0 <= i < |before| && before[i] == Request(ip, window);
        WindowsUpToLatest(before, i);
      }
    }
  }

  /** Sweeps change no answer: the run without them answers the same. */
  lemma SweepsDoNotMatter(events: seq<Event>, ip: IpAddr, window: nat, limit: u32)
    requires Orderly(events) && Latest(events) <= window
    ensures Orderly(Requests(events)) && Latest(Requests(events)) <= window
    ensures Allowed(events, ip, window, limit) == Allowed(Requests(events), ip, window, limit)
  {
    RequestsAgree(events, ip, window);
    OrderlyIsUninterrupted(events, ip, window);
    OrderlyIsUninterrupted(Requests(events), ip, window);
    AllowsExactly(events, ip, window, limit);
    AllowsExactly(Requests(events), ip, window, limit);
  }

  function Requests(events: seq<Event>): seq<Event> {
    if events == [] then []
    else
      var before := Requests(events[..|events| - 1]);
      if events[|events| - 1].Request? then before + [events[|events| - 1]] else before
  }

  lemma RequestAdded(before: seq<Event>, last: Event, ip: IpAddr, window: nat)
    requires last.Request?
    ensures Earlier(before + [last], ip, window)
         == Earlier(before, ip, window) + (if last == Request(ip, window) then 1 else 0)
    ensures Latest(before + [last]) == if last.window > Latest(before) then last.window else Latest(before)
    ensures Orderly(before + [last]) == (Orderly(before) && Latest(before) <= last.window)
  {
    assert (before + [last])[..|before|] == before;
  }

  lemma {:induction false} RequestsAgree(events: seq<Event>, ip: IpAddr, window: nat)
    requires Orderly(events)
    ensures Orderly(Requests(events)) && Latest(Requests(events)) == Latest(events)
    ensures Earlier(Requests(events), ip, window) == Earlier(events, ip, window)
  {
    if events != [] {
      var last := events[|events| - 1];
      var before := Requests(events[..|events| - 1]);
      RequestsAgree(events[..|events| - 1], ip, window);
      if last.Request? {
        RequestAdded(before, last, ip, window);
      }
    }
  }

  /** Order matters: one late request from an older window makes the limiter forget the newer one. */
  lemma LateRequestForgets(ip: IpAddr)
    ensures var events := [Request(ip, 5), Request(ip, 4)];
            Earlier(events, ip, 5) == 1 && Allowed(events, ip, 5, 1)
  {
    var events := [Request(ip, 5), Request(ip, 4)];
    assert events[..1] == [Request(ip, 5)] && [Request(ip, 5)][..0] == [];
    assert Earlier([Request(ip, 5)], ip, 5) == 1;
    assert BucketsAfter([Request(ip, 5)]) == map[ip := Bucket(5, 1, 5)];
    assert BucketsAfter(events) == map[ip := Bucket(4, 1, 4)];
  }

  lemma {:induction false} ManyRequests(ip: IpAddr, n: nat)
    ensures var events := seq(n, _ => Request(ip, 0));
            Earlier(events, ip, 0) == n && Orderly(events) && Latest(events) == 0
  {
    if n > 0 {
      ManyRequests(ip, n - 1);
      assert seq(n, _ => Request(ip, 0))[..n - 1] == seq(n - 1, _ => Request(ip, 0));
    }
  }

  /** Saturation shows: with the limit `u32::MAX` the request after that many is allowed, and so is any later one. */
  lemma SaturationAllows(ip: IpAddr, n: nat)
    requires n >= U32_MAX
    ensures var events := seq(n, _ => Request(ip, 0));
            Earlier(events, ip, 0) >= U32_MAX && Allowed(events, ip, 0, U32_MAX)
  {
    ManyRequests(ip, n);
    AllowsByStreak(seq(n, _ => Request(ip, 0)), ip, 0, U32_MAX);
  }
}

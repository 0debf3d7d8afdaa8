/** What the recorded size of a location, and the limit of a capture, mean in bytes. */
module CacheBytes {
  import opened Common
  import opened Weights
  import opened CacheStore
  import CacheRuns
  import CacheCapture

  function HeaderBytes(headers: seq<(string, string)>): nat {
    if headers == [] then 0 else |headers[0].0| + |headers[0].1| + HeaderBytes(headers[1..])
  }

  function KeyBytes(k: CacheKey): nat { |k.host| + |k.verb| + |k.uri| }

  /** A response costs its body, its headers, its key and 256 bytes. */
  function EntryBytes(k: CacheKey, r: CachedResponse): nat { |r.body| + HeaderBytes(r.headers) + KeyBytes(k) + 256 }

  /** An admission counter costs its key and 192 bytes. */
  function CountBytes(k: CacheKey, c: MissCount): nat { KeyBytes(k) + 192 }

  function Capped(n: nat): u64 { if n <= U64_MAX then n else U64_MAX }

  lemma {:induction false} HeaderBytesBack(headers: seq<(string, string)>)
    requires headers != []
    ensures var last := headers[|headers| - 1];
            HeaderBytes(headers) == HeaderBytes(headers[..|headers| - 1]) + |last.0| + |last.1|
  {
    if |headers| > 1 {
      HeaderBytesBack(headers[1..]);
      assert headers[1..][..|headers| - 2] == headers[..|headers| - 1][1..];
    } else {
      assert headers[1..] == [] && headers[..0] == [];
    }
  }

  lemma {:induction false} HeadersCapped(headers: seq<(string, string)>)
    ensures HeadersSize(headers) == Capped(HeaderBytes(headers))
  {
    if headers != [] {
      HeadersCapped(headers[..|headers| - 1]);
      HeaderBytesBack(headers);
    }
  }

  lemma SizesCapped(k: CacheKey, r: CachedResponse, c: MissCount)
    ensures EntrySize(k, r) == Capped(EntryBytes(k, r)) && CountSize(k, c) == Capped(CountBytes(k, c))
  {
    HeadersCapped(r.headers);
  }

  lemma {:induction false} WeightUncapped<K(!new), V(!new)>(m: map<K, V>, size: (K, V) -> nat, bytes: (K, V) -> nat)
    requires forall k, v :: size(k, v) == Capped(bytes(k, v))
    requires Weight(m, size) < U64_MAX
    ensures Weight(m, bytes) == Weight(m, size)
    decreases |m|
  {
    if m != map[] {
      var k :| k in m;
      WeightWithout(m, k, size);
      WeightWithout(m, k, bytes);
      assert size(k, m[k]) == Capped(bytes(k, m[k]));
      WeightUncapped(m - {k}, size, bytes);
    }
  }

  lemma HeldInBytes(s: Store)
    requires Within(s) && s.currentSize < U64_MAX
    ensures s.currentSize == Weight(s.entries, EntryBytes) + Weight(s.counts, CountBytes)
  {
    forall k, r ensures EntrySize(k, r) == Capped(EntryBytes(k, r)) { SizesCapped(k, r, MissCount(0, 0)); }
    forall k, c ensures CountSize(k, c) == Capped(CountBytes(k, c)) {
      SizesCapped(k, CachedResponse(0, [], [], 0), c);
    }
    WeightUncapped(s.entries, EntrySize, EntryBytes);
    WeightUncapped(s.counts, CountSize, CountBytes);
  }

  /**
    * After any run, unless the counting itself is saturated, the recorded size of a location is the bytes of all
    * bodies, headers and keys it holds, with 256 more for a response and 192 more for a counter; and they fit.
    */
  lemma BytesOverEveryRun(bs: seq<CacheRuns.Backend>, es: seq<CacheRuns.Event>, answers: seq<Answer>, n: nat,
                          route: u64)
    requires CacheRuns.BackendRun(bs, es, answers) && n < |bs| && route in bs[n].locations
    requires bs[n].locations[route].currentSize < U64_MAX
    ensures var s := bs[n].locations[route];
            s.currentSize == Weight(s.entries, EntryBytes) + Weight(s.counts, CountBytes) <= s.maxSize
  {
    CacheRuns.BudgetOverEveryRun(bs, es, answers, n);
    HeldInBytes(bs[n].locations[route]);
  }

  // ---- what is committed ----

  /** What key and headers leave for the body. */
  function Room(k: CacheKey, headers: seq<(string, string)>, maxSize: u64): nat {
    var taken := KeyBytes(k) + HeaderBytes(headers) + 256;
    if taken <= maxSize then maxSize - taken else 0
  }

  lemma RoomIsLimit(k: CacheKey, headers: seq<(string, string)>, maxSize: u64)
    ensures CacheCapture.BodyLimit(k, headers, maxSize) == Room(k, headers, maxSize)
  {
    HeadersCapped(headers);
  }

  /**
    * However the body comes in, the complete body is committed exactly when the request succeeded, has a key and a
    * config, was admitted or needs no admission, the response is cacheable, and neither the length announced, if
    * there is one, nor the body is more than the limit leaves beside key and headers.
    */
  lemma CommitsExactly(key: Option<CacheKey>, cfg: Option<CacheConfig>, admitted: bool, head: CacheCapture.Head,
                       maxSize: u64, chunks: seq<Option<seq<byte>>>, failed: bool, now: nat)
    ensures var start := CacheCapture.Context(key, cfg, admitted, None, None, None, []);
            var end := CacheCapture.AfterChunks(CacheCapture.AfterHead(start, head, maxSize), chunks);
            var body := CacheCapture.Concat(chunks);
            CacheCapture.Committed(end, failed, now).Some? <==>
            && !failed && key.Some? && cfg.Some? && head.cacheable
            && (cfg.value.minUses.None? || cfg.value.minUses.value <= 1 || admitted)
            && (head.contentLength == CacheCapture.Absent
                || (head.contentLength.Length? && head.contentLength.value <= Room(key.value, head.headers, maxSize)))
            && |body| <= Room(key.value, head.headers, maxSize)
  {
    CacheCapture.CompleteOrNothing(key, cfg, admitted, head, maxSize, chunks, failed, now);
    if key.Some? { RoomIsLimit(key.value, head.headers, maxSize); }
  }
}

/** Capturing an upstream response chunk by chunk and committing it to the cache when the request ends. */
module CacheCapture {
  import opened Common
  import opened CacheStore
  import CacheRuns

  /** The cache part of the per-request context. */
  datatype Context = Context(
    key: Option<CacheKey>, cfg: Option<CacheConfig>, thresholdReached: bool,
    status: Option<nat>, headers: Option<seq<(string, string)>>, bodyLimit: Option<u64>, buffer: seq<byte>)

  /** The Content-Length header: missing, present but not a u64, or a length. */
  datatype ContentLength = Absent | Malformed | Length(value: u64)

  /** The response head after plugins ran; `cacheable` is the verdict on status and headers. */
  datatype Head = Head(status: nat, headers: seq<(string, string)>, contentLength: ContentLength, cacheable: bool)

  datatype Commit = Commit(key: CacheKey, response: CachedResponse, cfg: CacheConfig)

  predicate StoreAllowed(cfg: CacheConfig, thresholdReached: bool) { MinUses(cfg) <= 1 || thresholdReached }

  /** Bytes an entry costs before its body. */
  function Overhead(key: CacheKey, headers: seq<(string, string)>): u64 {
    SatAdd(SatAdd(HeadersSize(headers), 128), KeySize(key))
  }

  function BodyLimit(key: CacheKey, headers: seq<(string, string)>, maxSize: u64): u64 {
    SatSub(maxSize, Overhead(key, headers))
  }

  predicate LengthFits(length: ContentLength, limit: u64) {
    length.Absent? || (length.Length? && length.value <= limit)
  }

  function Dropped(c: Context): Context {
    c.(status := None, headers := None, bodyLimit := None, buffer := [])
  }

  function Concat(chunks: seq<Option<seq<byte>>>): seq<byte> {
    if chunks == [] then []
    else Concat(chunks[..|chunks| - 1]) + (match chunks[|chunks| - 1] case Some(c) => c case None => [])
  }

  /** The request context, changed in place by the response filters. */
  class Capture {
    var ctx: Context

    constructor (key: Option<CacheKey>, cfg: Option<CacheConfig>, thresholdReached: bool)
      ensures ctx == Context(key, cfg, thresholdReached, None, None, None, [])
    {
      ctx := Context(key, cfg, thresholdReached, None, None, None, []);
    }

    method ResponseFilter(head: Head, maxSize: u64)
      modifies this
      ensures ctx == AfterHead(old(ctx), head, maxSize)
    {
      if ctx.key.Some? && ctx.cfg.Some? && StoreAllowed(ctx.cfg.value, ctx.thresholdReached) && head.cacheable {
        var limit := BodyLimit(ctx.key.value, head.headers, maxSize);
        if LengthFits(head.contentLength, limit) {
          ctx := ctx.(status := Some(head.status), headers := Some(head.headers), bodyLimit := Some(limit));
        }
      }
    }

    method ResponseBodyFilter(chunk: Option<seq<byte>>)
      modifies this
      ensures ctx == AfterChunk(old(ctx), chunk)
    {
      if ctx.bodyLimit.None? {
        return;
      }
      if chunk.Some? {
        var nextSize := SatAdd(|ctx.buffer|, |chunk.value|);
        if nextSize > ctx.bodyLimit.value {
          ctx := Dropped(ctx);
          return;
        }
        ctx := ctx.(buffer := ctx.buffer + chunk.value);
      }
    }

    /**
      * What the end of the request does to the cache: the generation current by then is announced, then
      * the response is put, if it is. `limit` is the size limit by then.
      */
    method FinishRequest(failed: bool, generation: u64, now: nat, limit: u64) returns (events: seq<CacheRuns.Event>)
      modifies this
      ensures events == FinishEvents(old(ctx), failed, generation, now, limit)
      ensures ctx == AfterFinish(old(ctx), failed)
    {
      events := [CacheRuns.Advance(generation)];
      if failed {
        ctx := Dropped(ctx);
        return;
      }
      if ctx.key.Some? && ctx.cfg.Some? {
        if !StoreAllowed(ctx.cfg.value, ctx.thresholdReached) {
          ctx := Dropped(ctx);
          return;
        }
        if ctx.status.Some? && ctx.headers.Some? {
          var response := CachedResponse(ctx.status.value, ctx.headers.value, ctx.buffer, now);
          ctx := ctx.(headers := None, buffer := []);
          events := events + [CacheRuns.Serve(Call(Put(ctx.key.value, response), ctx.cfg.value, now, limit))];
        }
      }
    }
  }

  function AfterHead(c: Context, head: Head, maxSize: u64): Context {
    if c.key.Some? && c.cfg.Some? && StoreAllowed(c.cfg.value, c.thresholdReached) && head.cacheable
       && LengthFits(head.contentLength, BodyLimit(c.key.value, head.headers, maxSize))
    then c.(status := Some(head.status), headers := Some(head.headers),
            bodyLimit := Some(BodyLimit(c.key.value, head.headers, maxSize)))
    else c
  }

  function AfterChunk(c: Context, chunk: Option<seq<byte>>): Context {
    if c.bodyLimit.None? || chunk.None? then c
    else if SatAdd(|c.buffer|, |chunk.value|) > c.bodyLimit.value then Dropped(c)
    else c.(buffer := c.buffer + chunk.value)
  }

  function AfterChunks(c: Context, chunks: seq<Option<seq<byte>>>): Context {
    if chunks == [] then c else AfterChunk(AfterChunks(c, chunks[..|chunks| - 1]), chunks[|chunks| - 1])
  }

  function AfterFinish(c: Context, failed: bool): Context {
    if failed then Dropped(c)
    else if c.key.None? || c.cfg.None? then c
    else if !StoreAllowed(c.cfg.value, c.thresholdReached) then Dropped(c)
    else if c.status.Some? && c.headers.Some? then c.(headers := None, buffer := [])
    else c
  }

  function Committed(c: Context, failed: bool, now: nat): Option<Commit> {
    if !failed && c.key.Some? && c.cfg.Some? && StoreAllowed(c.cfg.value, c.thresholdReached) && c.status.Some?
       && c.headers.Some?
    then Some(Commit(c.key.value, CachedResponse(c.status.value, c.headers.value, c.buffer, now), c.cfg.value))
    else None
  }

  function FinishEvents(c: Context, failed: bool, generation: u64, now: nat, limit: u64): seq<CacheRuns.Event> {
    [CacheRuns.Advance(generation)]
    + match Committed(c, failed, now)
      case None => []
      case Some(m) => [CacheRuns.Serve(Call(Put(m.key, m.response), m.cfg, now, limit))]
  }

  /** While it fits the buffer is the whole body so far; once it does not, the capture is gone for good. */
  lemma {:induction false} ChunksAccumulate(c: Context, chunks: seq<Option<seq<byte>>>)
    requires c.bodyLimit.Some? && c.bodyLimit.value < U64_MAX && c.buffer == []
    ensures AfterChunks(c, chunks) == if |Concat(chunks)| <= c.bodyLimit.value then c.(buffer := Concat(chunks))
                                      else Dropped(c)
  {
    if chunks != [] {
      ChunksAccumulate(c, chunks[..|chunks| - 1]);
    }
  }

  lemma {:induction false} ChunksIgnored(c: Context, chunks: seq<Option<seq<byte>>>)
    requires c.bodyLimit.None?
    ensures AfterChunks(c, chunks) == c
  {
    if chunks != [] {
      ChunksIgnored(c, chunks[..|chunks| - 1]);
    }
  }

  /** The whole condition under which a response is committed. */
  predicate Commits(key: Option<CacheKey>, cfg: Option<CacheConfig>, thresholdReached: bool, head: Head, maxSize: u64,
                    chunks: seq<Option<seq<byte>>>, failed: bool) {
    && !failed && key.Some? && cfg.Some? && StoreAllowed(cfg.value, thresholdReached) && head.cacheable
    && LengthFits(head.contentLength, BodyLimit(key.value, head.headers, maxSize))
    && |Concat(chunks)| <= BodyLimit(key.value, head.headers, maxSize)
  }

  /** However the body is chunked, the complete body is committed, or nothing is. */
  lemma CompleteOrNothing(key: Option<CacheKey>, cfg: Option<CacheConfig>, thresholdReached: bool, head: Head,
                          maxSize: u64, chunks: seq<Option<seq<byte>>>, failed: bool, now: nat)
    ensures var start := Context(key, cfg, thresholdReached, None, None, None, []);
            Committed(AfterChunks(AfterHead(start, head, maxSize), chunks), failed, now)
            == if Commits(key, cfg, thresholdReached, head, maxSize, chunks, failed)
            then Some(Commit(key.value, CachedResponse(head.status, head.headers, Concat(chunks), now), cfg.value))
            else None
  {
    var c := AfterHead(Context(key, cfg, thresholdReached, None, None, None, []), head, maxSize);
    if c.bodyLimit.Some? {
      ChunksAccumulate(c, chunks);
    } else {
      ChunksIgnored(c, chunks);
    }
  }

  /** Two ways of cutting up the same body commit the same response. */
  lemma ChunkingIrrelevant(key: Option<CacheKey>, cfg: Option<CacheConfig>, thresholdReached: bool, head: Head,
                           maxSize: u64, these: seq<Option<seq<byte>>>, those: seq<Option<seq<byte>>>, failed: bool,
                           now: nat)
    requires Concat(these) == Concat(those)
    ensures var c := AfterHead(Context(key, cfg, thresholdReached, None, None, None, []), head, maxSize);
            Committed(AfterChunks(c, these), failed, now) == Committed(AfterChunks(c, those), failed, now)
  {
    CompleteOrNothing(key, cfg, thresholdReached, head, maxSize, these, failed, now);
    CompleteOrNothing(key, cfg, thresholdReached, head, maxSize, those, failed, now);
  }

  /** A body within the capture limit makes an entry within the size limit exactly when the overhead alone is. */
  lemma CapturedFits(key: CacheKey, r: CachedResponse, maxSize: u64)
    requires |r.body| <= BodyLimit(key, r.headers, maxSize)
    ensures EntrySize(key, r) <= maxSize <==> Overhead(key, r.headers) <= maxSize
  {
  }

  function Captured(key: CacheKey, cfg: CacheConfig, thresholdReached: bool, head: Head, maxSize: u64,
                    chunks: seq<Option<seq<byte>>>): Context {
    AfterChunks(AfterHead(Context(Some(key), Some(cfg), thresholdReached, None, None, None, []), head, maxSize), chunks)
  }

  /**
    * In any run of the cache, the end of a request that commits leaves the complete response stored exactly
    * when the cache is enabled, no later generation has been announced, and the entry fits the limit by
    * then; under the limit of the capture that means that headers and key alone fit it.
    */
  lemma CommitIsStored(key: CacheKey, cfg: CacheConfig, thresholdReached: bool, head: Head, maxSize: u64,
                       chunks: seq<Option<seq<byte>>>, generation: u64, now: nat, limit: u64,
                       bs: seq<CacheRuns.Backend>, es: seq<CacheRuns.Event>, answers: seq<Answer>,
                       config: (u64, u64) -> CacheConfig, n: nat)
    requires Commits(Some(key), Some(cfg), thresholdReached, head, maxSize, chunks, false)
    requires CacheRuns.BackendRun(bs, es, answers) && CacheRuns.Configured(es, config) && n + 1 < |es|
    requires es[n..n + 2] == FinishEvents(Captured(key, cfg, thresholdReached, head, maxSize, chunks), false,
                                          generation, now, limit)
    ensures var r := CachedResponse(head.status, head.headers, Concat(chunks), now);
            && (CacheRuns.Stored(bs[n + 2], key) <==>
                cfg.enabled && key.generation >= bs[n].generation && key.generation >= generation
                && EntrySize(key, r) <= limit)
            && (CacheRuns.Stored(bs[n + 2], key) ==> bs[n + 2].locations[key.routeId].entries[key] == r)
            && (limit == maxSize ==> (EntrySize(key, r) <= limit <==> Overhead(key, head.headers) <= maxSize))
  {
    var r := CachedResponse(head.status, head.headers, Concat(chunks), now);
    CompleteOrNothing(Some(key), Some(cfg), thresholdReached, head, maxSize, chunks, false, now);
    CapturedFits(key, r, maxSize);
    assert es[n] == es[n..n + 2][0] && es[n + 1] == es[n..n + 2][1];
    assert CacheRuns.StepAt(bs, es, answers, n);
    CacheRuns.PutStores(bs, es, answers, config, n + 1, Call(Put(key, r), cfg, now, limit));
  }

  /** Under the limit 0 an empty cacheable response is committed, and no put can store it. */
  lemma CommittedButNotStored(key: CacheKey, cfg: CacheConfig, now: nat, before: Store, after: Store, answer: Answer)
    requires StoreStep(before, Call(Put(key, CachedResponse(200, [], [], now)), cfg, now, 0), after, answer)
    ensures Commits(Some(key), Some(cfg), true, Head(200, [], Absent, true), 0, [], false) && key !in after.entries
  {
    CacheRuns.PutDecides(before, Call(Put(key, CachedResponse(200, [], [], now)), cfg, now, 0), after, answer);
  }

  /**
    * A request that began in generation 1 and ends once generation 2 is active commits a response that fits
    * and is lost.
    */
  lemma CommittedButRetired(cfg: CacheConfig, now: nat, b: CacheRuns.Backend, c: CacheRuns.Backend,
                            d: CacheRuns.Backend, answer: Answer)
    requires b.generation <= 1 && CacheRuns.BackendStep(b, CacheRuns.Advance(2), c, Done)
    requires var call := Call(Put(CacheKey(1, 7, "", "GET", "/"), CachedResponse(200, [], [], now)), cfg, now, 1000);
             CacheRuns.BackendStep(c, CacheRuns.Serve(call), d, answer)
    ensures var key := CacheKey(1, 7, "", "GET", "/");
            && Commits(Some(key), Some(cfg), true, Head(200, [], Absent, true), 1000, [], false)
            && Overhead(key, []) <= 1000 && !CacheRuns.Stored(d, key)
  {
  }
}

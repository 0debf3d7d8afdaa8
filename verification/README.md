# ngxora, verified

ngxora is a reverse proxy: a Rust data plane with an nginx-style configuration language, a response
cache, TLS termination and a gRPC control plane, and a Go client that keeps a desired snapshot applied.
This project models the parts of it that are hard to get right and proves what they promise, for every
input, every run and every interleaving.

- **Response cache** (`CacheStore`, `CacheRuns`, `CacheSweeps`, `CacheAnswers`, `CacheBytes`, `CacheInterleavings`,
  `CacheCapture`). A class per location with exact size accounting, runs over calls with any clocks, configs and
  limits, what sweeping and a byte budget do to the answers, when exactly a lookup finds and a miss is admitted, a
  small-step machine for threads that race with a generation change, and the capture of a streamed body.
- **Configuration text** (`Lexer`, `TextLayout`, `Parser`, `Include`, `IncludeRoot`, `DurationLiteral`). The
  tokenizer and the parser are inverses of a printer, includes resolve to exactly the sixteen-level expansion and
  never read outside the root directory, and a duration literal is accepted exactly when its sum fits.
- **Compiling and choosing routes** (`Config`, `RouterBuild`, `RouterFacts`, `Routing`, `RoutingFacts`, `Segments`,
  `PathSegments`, `Hostnames`). Route ids identify locations, a certificate and a host come from one block, and the
  chosen route is the one a declarative order determines, whatever the order of hash-map iteration; what matches is
  said in segments of paths and labels of names.
- **Control plane** (`Control`, `TlsMaterial`, `RenewalPaths`, `GoClient`, `GoProgress`). Applying snapshots, serving
  certificates during renewal, and the Go reconciliation loop, each as a state machine with its invariant over every
  run.
- **Snapshots over the wire** (`WireRoute`, `WireParts`, `WireSnapshot`, `WireExport`, `Ordering`, `WireFallback`,
  `WireEncode`, `TwoNames`, `WireWitness`, `WireSyntax`, `WireDefaults`, `WireGuarantees`). What an accepted snapshot
  guarantees, what fields left unset mean, and the way back: the export of an accepted snapshot is accepted again as
  the same router exactly when no location proxies to port 0 or, on the scheme's own port, to a host that has the
  name of an upstream group. Fallback certificates survive too exactly when, on every TLS listener without default
  host, the least name has the fallback certificate.
- **Extensions** (`RateLimit`, `ClientIp`). The limiter against a direct count of requests, and the client
  address through any number of proxies.

Code that changes things in place is a class or a method with loops, proved against a function or a relation
on values; the results over runs are lemmas about those. Time, random numbers, file contents and the outcome
of calls to other libraries are parameters. What those libraries promise (printed addresses parse back, a
header name in normal form is stable, a URL made of a host and a port parses to them, a plugin document
parses back) is the predicate `Faithful`, a hypothesis of the lemmas that need it; `FaithfulIsPossible` shows that all
of it can be kept together. For documents it is a hypothesis about the documents too: a floating-point number
need not be read back bit for bit unless the JSON library is built to do so.

Seven expected properties turned out false of the code. Each has an input that shows it and the exact
condition under which the property holds:

- a duration literal makes the parser panic exactly when readable segments that fit 128 bits are followed by a
  number that fits 128 bits and a character outside ASCII (`MicroSignPanics`, `PanicsExactly`);
- the rate limiter with the limit `u32::MAX` allows everything, because counting saturates (`SaturationAllows`),
  and it counts a window exactly unless a late request of another window, or a sweep from far ahead,
  interrupted it (`LateRequestForgets`, `AllowsExactly`, `InterruptionShows`);
- a committed response is stored exactly when the cache is enabled, no later generation was announced before
  the put, and the entry fits the limit by then; if the limit is still that of the capture, the last means that
  key and headers alone fit it (`CommittedButNotStored`, `CommittedButRetired`, `CommitIsStored`);
- an exported upstream host is not always read back (`UserInfoBecomesGroup`, `PortZeroIsRefused`,
  `RoundTripExactlyWhenStable`);
- nor is the fallback certificate of a TLS listener without default host: names are exported in order, so it
  becomes the certificate of the least name (`FallbackMoves`, `TwoBlocksRoundTrip`, `SortedRoundTripExactly`);
- the Go client's backoff is not always the lesser of the doubled smallest and the largest: one short of the largest
  it is the largest already (`OddMaximumIsEarly`, `BackoffIsMin`);
- the file an issued certificate is expected in need not be one the renewal service takes care of, if the server name
  is an absolute path (`AbsoluteNameIsUnmanaged`, `IssuedIsManaged`).

## Model

| member | source | states |
|---|---|---|
| CacheStore.LocationCache.RemoveResponse | crates/ngxora-runtime/src/cache.rs:93-97 | exactly this response goes, and the recorded size drops by exactly its estimate |
| CacheStore.LocationCache.RemoveCount | crates/ngxora-runtime/src/cache.rs:99-103 | exactly this miss count goes, and the recorded size drops by exactly its estimate |
| CacheStore.LocationCache.MakeRoom | crates/ngxora-runtime/src/cache.rs:105-120 | succeeds exactly when the size alone fits the limit; then what is left is part of what was there, leaves that much room, responses go only once all counts are gone, and the last victim was needed, in whatever order the hash maps are walked; on failure nothing changes |
| CacheStore.LocationCache.RecordMiss | crates/ngxora-runtime/src/cache.rs:122-147 | admitted at once for `min_uses` up to 1; a counted key is admitted exactly when its count, restarted after a ttl without a miss, reaches `min_uses`; a first miss is recorded whenever it can fit; size stays exact and within the limit |
| CacheStore.LocationCache.Put | crates/ngxora-runtime/src/cache.rs:149-159 | old value and count of the key go, the response is stored exactly when it fits the limit; size stays exact and within the limit |
| CacheStore.LocationCache.EvictStale | crates/ngxora-runtime/src/cache.rs:161-181 | exactly the responses past retention and the counts past their ttl go |
| CacheStore.LocationCache.SweepEntries | crates/ngxora-runtime/src/cache.rs:162-169 | keeps exactly the responses younger than the retention, with the size exact |
| CacheStore.LocationCache.SweepCounts | crates/ngxora-runtime/src/cache.rs:170-177 | keeps exactly the counts seen within the ttl, with the size exact |
| CacheStore.LocationCache.SyncLimits | crates/ngxora-runtime/src/cache.rs:81-91 | ttl, retention and limit become those of the config, a sweep runs exactly when the last is a second old, and the size ends within the new limit |
| CacheStore.LocationCache.LockedGet | crates/ngxora-runtime/src/cache.rs:264-270 | a lookup is the `Get` step of the store relation: the response if it is younger than the ttl, nothing else, no change |
| CacheStore.LocationCache.LockedGetStale | crates/ngxora-runtime/src/cache.rs:281-290 | a stale lookup is the `GetStale` step: the response up to the end of the stale period, only when the config has one |
| CacheStore.LocationCache.LockedMiss | crates/ngxora-runtime/src/cache.rs:272-279 | one locked miss is a step of the store relation and ends within the limit |
| CacheStore.LocationCache.LockedPut | crates/ngxora-runtime/src/cache.rs:292-299 | one locked put is a step of the store relation and ends within the limit |
| CacheStore.HeldSplit | crates/ngxora-runtime/src/cache.rs:93-120 | size is conserved: whatever part of the tables is kept, held bytes are its bytes plus those of what went |
| CacheRuns.StoreStepKeepsBudget | crates/ngxora-runtime/src/cache.rs:81-182 | every locked operation keeps the recorded size equal to the bytes held and within the limit |
| CacheRuns.BudgetOverEveryRun | crates/ngxora-runtime/src/cache.rs:81-182 | after any sequence of calls with any clocks, configs and limits, sweeps, invalidations and generation changes, every location has an exact size within its limit |
| CacheRuns.PutDecides | crates/ngxora-runtime/src/cache.rs:149-159 | after a put its key is there exactly when the entry fits the limit of the call, and then it holds the response put |
| CacheRuns.StoreStepEntries | crates/ngxora-runtime/src/cache.rs:81-182 | no step adds or changes a response except a put, under its own key |
| CacheRuns.TracksOverEveryRun | crates/ngxora-runtime/src/cache.rs:149-182 | over any run every response held is the latest one put under its key |
| CacheRuns.ReturnsLatestPut | crates/ngxora-runtime/src/cache.rs:264-299 | whatever a lookup returns was the latest put under that very key (generation, route, request) and is within its retention |
| CacheRuns.PutStores | crates/ngxora-runtime/src/cache.rs:229-299 | after any run a put leaves its key stored exactly when the cache is enabled, the generation of the key is not retired and the entry fits the limit of the call, and then with the response put |
| CacheRuns.SweepUnseen | crates/ngxora-runtime/src/cache.rs:161-181 | no later lookup, fresh or stale, can tell a swept store from the unswept one |
| CacheSweeps.EntriesOverEveryRun | crates/ngxora-runtime/src/cache.rs:81-182 | in every run of a location, whatever limits, clocks and sweeps, a response held is the latest one, and one missing before it expired was dropped for want of room since the key was last put |
| CacheSweeps.CountsOverEveryRun | crates/ngxora-runtime/src/cache.rs:81-182 | likewise a miss counter agrees with the one that is never swept, unless it was dropped for want of room since the key was last put |
| CacheSweeps.AnswersOverEveryRun | crates/ngxora-runtime/src/cache.rs:81-299 | in every run each lookup and each admission is answered as by the store that never forgets, or the response or counter asked for was dropped for want of room; no sweep is ever the reason |
| CacheSweeps.RoomToSpare | crates/ngxora-runtime/src/cache.rs:105-120 | nothing is evicted while the new entry fits beside what is held |
| CacheSweeps.FittingDropsNothing | crates/ngxora-runtime/src/cache.rs:81-159 | a call that fits beside what its sweep leaves drops neither response nor counter of any key |
| CacheSweeps.SweepsInvisibleOverEveryRun | crates/ngxora-runtime/src/cache.rs:81-299 | as long as each call fits beside what the sweeps leave, however much was stored before, every answer is that of the store that never forgets |
| CacheAnswers.HoldsLastPut | crates/ngxora-runtime/src/cache.rs:149-182 | a location holds of a key only its last put, nothing once that was dropped for want of room, and it until the ttl and the stale period are over |
| CacheAnswers.GetExactly | crates/ngxora-runtime/src/cache.rs:264-270 | in every run a lookup finds a response exactly when it was the last put under the key, was not dropped for want of room, and is younger than the ttl, sixty seconds if there is none |
| CacheAnswers.GetStaleExactly | crates/ngxora-runtime/src/cache.rs:281-290 | a stale lookup finds it exactly when the config has a stale period and it is younger than ttl and period together, at most the longest duration |
| CacheAnswers.AdmitsExactly | crates/ngxora-runtime/src/cache.rs:122-147 | a miss is admitted exactly when it is at least the `min_uses`-th of the key without a put of the key or a gap of a ttl in between, unless its counter was dropped for want of room |
| CacheBytes.BytesOverEveryRun | crates/ngxora-runtime/src/cache.rs:29-65 | below saturation the recorded size is the bytes of all bodies, headers and keys held, plus 256 for each response and 192 for each counter, and within the limit |
| CacheInterleavings.StepKeepsInv | crates/ngxora-runtime/src/cache.rs:215-317 | every step of any thread, one per lock region, keeps the invariant: stores reachable from the table hold only their route and live generations |
| CacheInterleavings.InvOverEveryRun | crates/ngxora-runtime/src/cache.rs:215-317 | the invariant holds in every state of every interleaving of lookups, puts, misses, sweeps, invalidations and generation changes |
| CacheInterleavings.GenerationNeverDecreases | crates/ngxora-runtime/src/cache.rs:215-227 | neither the current generation nor the last completed advance ever goes back |
| CacheInterleavings.ReachableStoresAreCurrent | crates/ngxora-runtime/src/cache.rs:229-262 | in every interleaving a store in the table is within its limit and holds only keys of its route and of live generations |
| CacheInterleavings.CallKeepsFloor | crates/ngxora-runtime/src/cache.rs:229-299 | a call in flight keeps the request and the generation floor it started with |
| CacheInterleavings.FindsLastPut | crates/ngxora-runtime/src/cache.rs:264-299 | in every interleaving a lookup returns the last response put under its key into the store it holds |
| CacheInterleavings.RetiredEntriesNeverReturn | crates/ngxora-runtime/src/cache.rs:215-299 | a lookup that begins after an advance to g has returned never finds an entry of a generation below g, and what it finds is the last response put under its key into the store it holds |
| CacheCapture.Capture.ResponseFilter | crates/ngxora-runtime/src/upstreams/runtime/proxy.rs:498-526 | capture starts exactly for a cacheable response with a key, a config and a reached threshold, with the body limit left by key and headers |
| CacheCapture.Capture.ResponseBodyFilter | crates/ngxora-runtime/src/upstreams/runtime/proxy.rs:532-556 | a chunk is appended while the whole fits; the first that does not drops the capture |
| CacheCapture.Capture.FinishRequest | crates/ngxora-runtime/src/upstreams/runtime/completion.rs:148-187 | the end of a request announces the generation then current and after that puts the captured head with the whole buffer, only if the request did not fail and a capture is still there |
| CacheCapture.ChunksAccumulate | crates/ngxora-runtime/src/upstreams/runtime/proxy.rs:532-556 | after any chunks the buffer is their concatenation, or the capture is gone, exactly when the total is over the limit |
| CacheCapture.CompleteOrNothing | crates/ngxora-runtime/src/upstreams/runtime/completion.rs:151-186 | however the body is cut up, the complete body is committed, or nothing is, with the exact condition for which |
| CacheBytes.CommitsExactly | crates/ngxora-runtime/src/upstreams/runtime/completion.rs:151-186 | the complete body is committed exactly when the request succeeded, was admitted or needs no admission, the response is cacheable, and neither the length announced nor the body is more than the limit leaves beside key, headers and 256 bytes |
| CacheCapture.ChunkingIrrelevant | crates/ngxora-runtime/src/upstreams/runtime/proxy.rs:532-556 | two ways of cutting up the same body commit the same response |
| CacheCapture.CapturedFits | crates/ngxora-runtime/src/upstreams/runtime/proxy.rs:498-526 | a captured body makes an entry within the limit exactly when the overhead alone is |
| CacheCapture.CommitIsStored | crates/ngxora-runtime/src/upstreams/runtime/completion.rs:148-187 | in any run, the end of a request that commits leaves the complete response stored exactly when the cache is enabled, neither the cache nor this request has announced a later generation, and the entry fits the limit by then, which under an unchanged limit means that key and headers fit it |
| CacheCapture.CommittedButNotStored | crates/ngxora-runtime/src/upstreams/runtime/completion.rs:151-186 | an empty response under the limit 0 is committed and never stored |
| CacheCapture.CommittedButRetired | crates/ngxora-runtime/src/upstreams/runtime/completion.rs:148-187 | a response that fits, of a request that began in generation 1 and ends once generation 2 is active, is committed and lost |
| Lexer.Flush | crates/ngxora-config/src/lexer.rs:71-89 | the pending word becomes one token with its text, byte length and line, and the tokens read so far stay a prefix of the lexing of the whole text |
| Lexer.SkipComment | crates/ngxora-config/src/lexer.rs:37-46 | a comment is skipped to its newline or the end and contributes no token |
| Lexer.ReadSeparator | crates/ngxora-config/src/lexer.rs:48-63 | a newline, other whitespace or a punctuation mark is read, and the line counted |
| Lexer.Tokenize | crates/ngxora-config/src/lexer.rs:18-68 | the one-pass tokenizer with byte positions produces exactly the recursive lexing of the text |
| Lexer.LexWord | crates/ngxora-config/src/lexer.rs:18-89 | a maximal run of word characters is one token |
| TextLayout.LexRender | crates/ngxora-config/src/lexer.rs:18-89 | tokenizing any layout of symbols, with any blanks and comments, gives the symbols back with their lines |
| TextLayout.EveryTextIsALayout | crates/ngxora-config/src/lexer.rs:18-89 | every text is such a layout, so nothing else can be fed to the tokenizer |
| TextLayout.TokensErase | crates/ngxora-config/src/lexer.rs:18-89 | forgetting lines and lengths of the tokens of a layout leaves its symbols |
| TextLayout.LexedWordsOk | crates/ngxora-config/src/lexer.rs:18-89 | every word the tokenizer produces can be written back as a word |
| Parser.TokenParser.Next | crates/ngxora-config/src/parser.rs:26-32 | one token is consumed, or none at the end |
| Parser.TokenParser.Expect | crates/ngxora-config/src/parser.rs:34-45 | consumes one token of the kind asked for; otherwise the error names what was found, or the end |
| Parser.TokenParser.ParseItemsAt | crates/ngxora-config/src/parser.rs:47-71 | the loop over the shared position accepts, consumes and rejects as the recursive grammar does |
| Parser.TokenParser.ParseStmtAt | crates/ngxora-config/src/parser.rs:73-117 | the same for one directive or block, with its arguments |
| Parser.ItemsSound | crates/ngxora-config/src/parser.rs:47-71 | what was consumed is the flattening of the nodes returned, and parsing stops at the closing brace or the end |
| Parser.StmtSound | crates/ngxora-config/src/parser.rs:73-117 | the same for one statement |
| Parser.StmtComplete | crates/ngxora-config/src/parser.rs:73-117 | the flattening of any node is parsed to that node, whatever follows it |
| Parser.ItemsComplete | crates/ngxora-config/src/parser.rs:47-71 | the flattening of any list of nodes is parsed to that list |
| Parser.AcceptsExactlyFlattenings | crates/ngxora-config/src/parser.rs:47-117 | a token list is accepted as a tree exactly when it is the flattening of that tree |
| Parser.ParseText | crates/ngxora-config/src/ast.rs:42-51 | tokenizer and parser together compute the configuration parser the round trips are about |
| Parser.LayoutParses | crates/ngxora-config/src/ast.rs:42-51 | any text that lays out a tree, with any blanks and comments, parses to that tree |
| Parser.PrintParseRoundTrip | crates/ngxora-config/src/ast.rs:42-51 | printing a tree and parsing it gives the tree, for every tree whose words can be written |
| Parser.AcceptedTextReprints | crates/ngxora-config/src/ast.rs:42-51 | a text is accepted exactly when its symbols flatten a tree, and that tree prints and parses to itself |
| Include.IncludeRun.Nodes | crates/ngxora-config/src/include.rs:68-137 | the mutable resolver computes the functional one and leaves the set of open files as it was |
| Include.IncludeRun.One | crates/ngxora-config/src/include.rs:68-137 | the same for one node: a block is rebuilt around its resolved children, an include is replaced |
| Include.IncludeRun.File | crates/ngxora-config/src/include.rs:68-137 | the same for one file: open files are cycles, other files are read, parsed and resolved one level deeper |
| Include.Resolve | crates/ngxora-config/src/include.rs:36-47 | the result is the full expansion within sixteen levels, without any include left, or an error exactly when there is none |
| Include.NodesSound | crates/ngxora-config/src/include.rs:68-137 | whatever the set of open files, a result is the expansion that knows no cycle detection |
| Include.NodesComplete | crates/ngxora-config/src/include.rs:68-137 | an expansion within the levels left is found, when no open file can be met in it |
| Include.FileComplete | crates/ngxora-config/src/include.rs:68-137 | the same for one file, including that cycle detection never rejects a file that expands |
| Include.ResolvesToFullExpansion | crates/ngxora-config/src/include.rs:68-137 | resolution succeeds exactly when the configuration expands within sixteen levels, with that expansion |
| Include.ExpandMore | crates/ngxora-config/src/include.rs:68-137 | more levels never change an expansion that exists |
| Include.FewestLevels | crates/ngxora-config/src/include.rs:68-137 | every file that expands has a least number of levels it expands in |
| Include.CycleNeverExpands | crates/ngxora-config/src/include.rs:68-137 | a file on an include cycle expands in no number of levels |
| Include.RevisitRejected | crates/ngxora-config/src/include.rs:68-137 | a configuration from which some file reaches itself again is rejected |
| Include.ExpandedIsPasted | crates/ngxora-config/src/include.rs:68-137 | an expansion has no include at any depth, and its symbols are those of the files pasted in place |
| Include.ResolvedIsPasted | crates/ngxora-config/src/include.rs:68-137 | a resolved configuration is what the parser makes of the pasted symbols |
| IncludeRoot.OutsideIsUnread | crates/ngxora-config/src/include.rs:68-166 | resolution gives the same outcome on two file systems that agree on the names and on the files under the root, whatever is outside |
| IncludeRoot.ResolvedIsInside | crates/ngxora-config/src/include.rs:139-166 | in a configuration that resolves, every include argument at every depth leads to a readable file under the root |
| IncludeRoot.EscapeIsRefused | crates/ngxora-config/src/include.rs:155-164 | a configuration that cites a path outside the root, in whatever block, is refused |
| IncludeRoot.LooksBeside | crates/ngxora-config/src/include.rs:139-153 | a relative argument is looked up beside the file that has it, an absolute one where it says |
| DurationLiteral.SkipDigits | crates/ngxora-compile/src/transform/values.rs:204-260 | stops at the end of the run of digits |
| DurationLiteral.ReadAt | crates/ngxora-compile/src/transform/values.rs:204-260 | one round reads number and unit as the first segment of the remaining text |
| DurationLiteral.ParseDuration | crates/ngxora-compile/src/transform/values.rs:183-260 | the loop computes the evaluation of the rounds: value, error or panic |
| DurationLiteral.Round | crates/ngxora-compile/src/transform/values.rs:209-254 | one turn of the loop gives the final answer, or leaves the same answer to be computed from where it got to |
| DurationLiteral.ReadsSegments | crates/ngxora-compile/src/transform/values.rs:204-260 | printed segments are read back one by one, `m` never taken for `ms` |
| DurationLiteral.SplitsIntoSegments | crates/ngxora-compile/src/transform/values.rs:204-260 | any text is printed segments and a tail at which reading ends |
| DurationLiteral.RoundsAddUp | crates/ngxora-compile/src/transform/values.rs:204-260 | checked arithmetic gives the exact sum while it fits 128 bits and an error otherwise |
| DurationLiteral.LoneNumberParses | crates/ngxora-compile/src/transform/values.rs:204-260 | a number without unit means seconds, or is an error when the milliseconds do not fit 64 bits |
| DurationLiteral.PrintedParses | crates/ngxora-compile/src/transform/values.rs:183-260 | printing any segments and parsing them gives their exact sum, or an error when it does not fit 64 bits |
| DurationLiteral.AcceptedLiteral | crates/ngxora-compile/src/transform/values.rs:183-260 | an accepted literal is a lone number or a list of segments with the value returned |
| DurationLiteral.CutPanics | crates/ngxora-compile/src/transform/values.rs:225-240 | the one-byte unit slice panics after any number that fits 128 bits and before any character of several bytes |
| DurationLiteral.PanicIsCut | crates/ngxora-compile/src/transform/values.rs:225-240 | and nowhere else |
| DurationLiteral.ParsesExactly | crates/ngxora-compile/src/transform/values.rs:183-260 | a literal has value v exactly when it is a lone number or a list of segments worth v milliseconds |
| DurationLiteral.UnitsRelate | crates/ngxora-compile/src/transform/values.rs:184-196 | a thousand milliseconds to the second, 60 seconds to the minute, 60 minutes to the hour, 24 hours to the day, and 7, 30 and 365 days to week, month and year |
| DurationLiteral.PanicsExactly | crates/ngxora-compile/src/transform/values.rs:225-240 | the parser panics exactly on readable segments that fit 128 bits, then a number that fits 128 bits, then a character outside ASCII |
| DurationLiteral.AsciiNeverPanics | crates/ngxora-compile/src/transform/values.rs:183-260 | no ASCII text makes the parser panic |
| DurationLiteral.MicroSignPanics | crates/ngxora-compile/src/transform/values.rs:225-240 | an input that panics: `1` followed by a micro sign |
| RateLimit.Limiter.MaybeSweep | crates/extensions/rate-limit/src/lib.rs:66-75 | every 1024th request appends a sweep to the events, and the table stays what the events leave: exactly the addresses not seen in the last 120 windows go |
| RateLimit.Limiter.AllowRequest | crates/extensions/rate-limit/src/lib.rs:77-93 | a call after any events answers what the run of those events answers, and leaves the table of the run with the request appended, and with a sweep appended on every 1024th request |
| RateLimit.TableHoldsStreaks | crates/extensions/rate-limit/src/lib.rs:66-93 | in whatever order requests and sweeps come, the table holds for each address the number of requests since it was last forgotten, saturated |
| RateLimit.AllowsByStreak | crates/extensions/rate-limit/src/lib.rs:77-93 | a request is allowed exactly when that number is below the limit, or the limit is `u32::MAX` |
| RateLimit.StreakIsEarlier | crates/extensions/rate-limit/src/lib.rs:66-93 | that number is the whole count of the window exactly when neither a request of another window nor a sweep from far ahead interrupted it |
| RateLimit.AllowsExactly | crates/extensions/rate-limit/src/lib.rs:66-93 | if nothing interrupted it, a request is allowed exactly when fewer than `limit` requests of its address came in its window before, or the limit is `u32::MAX` |
| RateLimit.InterruptionShows | crates/extensions/rate-limit/src/lib.rs:66-93 | and only then: after an interruption some limit lets one request too many through |
| RateLimit.OrderlyIsUninterrupted | crates/extensions/rate-limit/src/lib.rs:66-93 | nothing is interrupted while windows come in order, wherever sweeps happen |
| RateLimit.SaturationAllows | crates/extensions/rate-limit/src/lib.rs:77-93 | with the limit `u32::MAX` any number of requests is allowed |
| RateLimit.SweepsDoNotMatter | crates/extensions/rate-limit/src/lib.rs:66-75 | wherever sweeps happen, every answer is that of the run without them |
| RateLimit.LateRequestForgets | crates/extensions/rate-limit/src/lib.rs:77-93 | windows out of order: one late request makes the limiter allow one request too many |
| ClientIp.ParseJoined | crates/ngxora-plugin-api/src/client_ip.rs:49-78 | a joined list of addresses, with or without a leading blank, is read back |
| ClientIp.ParseSent | crates/extensions/headers/src/lib.rs:140-171 | what the forwarding extension writes into X-Forwarded-For is read back by the next hop |
| ClientIp.ResolveChain | crates/ngxora-plugin-api/src/client_ip.rs:49-78 | the chain is the longest suffix of claimed addresses and peer in which every address but the first is trusted |
| ClientIp.Walk | crates/ngxora-plugin-api/src/client_ip.rs:69-77 | popping while the current address is trusted and reversing gives that suffix |
| ClientIp.WalkFindsLongest | crates/ngxora-plugin-api/src/client_ip.rs:69-77 | walking left while trusted stops at the start of the longest vouched suffix |
| ClientIp.HeaderMap.Apply | crates/extensions/headers/src/lib.rs:140-171 | both address headers are rewritten from the chain, or removed when there is none |
| ClientIp.RecursiveChainHanded | crates/ngxora-plugin-api/src/client_ip.rs:10-46 | a recursive hop always resolves a chain that the next hop may trust |
| ClientIp.UntrustedSpeaksForItself | crates/ngxora-plugin-api/src/client_ip.rs:10-46 | an untrusted peer yields itself alone, whatever its headers and whichever header is read |
| ClientIp.TrustedHopAppends | crates/ngxora-plugin-api/src/client_ip.rs:10-46 | a trusted hop appends its peer to the chain it was sent and changes nothing else |
| ClientIp.RealIpHopKeepsClient | crates/ngxora-plugin-api/src/client_ip.rs:10-46 | a hop that reads X-Real-IP keeps the client and forgets the hops between |
| ClientIp.PlainHopTakesNearest | crates/ngxora-plugin-api/src/client_ip.rs:10-46 | a hop that is not recursive keeps the nearest address of the chain it was sent and its peer, and nothing else |
| ClientIp.PlainHopLosesClient | crates/ngxora-plugin-api/src/client_ip.rs:10-46 | behind one trusted proxy a hop that is not recursive loses the client, where a recursive one keeps the whole chain |
| ClientIp.NextHop | crates/extensions/headers/src/lib.rs:126-171 | what one hop writes and the next reads: the chain and the new peer |
| ClientIp.ClientStableOverHops | crates/extensions/headers/src/lib.rs:126-171 | through any number of trusted hops the chain grows by the peers passed, so every hop sees the client the first hop saw |
| RouterBuild.Builder.CompileLocationsAt | crates/ngxora-runtime/src/upstreams/compile/routes.rs:405-426 | mixed matchers are refused; otherwise the compiled locations get consecutive ids from the shared counter |
| RouterBuild.Builder.AddListenAt | crates/ngxora-runtime/src/upstreams/compile.rs:142-205 | one listen installs names, default, protocol and certificate, or reports the conflict |
| RouterBuild.Builder.AddServerAt | crates/ngxora-runtime/src/upstreams/compile.rs:106-208 | one block: name, location and profile checks in this order, then all its listens |
| RouterBuild.Builder.AddServersAt | crates/ngxora-runtime/src/upstreams/compile.rs:80-82 | the blocks one after another; the first that fails decides the error |
| RouterBuild.InsertNames | crates/ngxora-runtime/src/upstreams/compile.rs:150-203 | all names of a block, in normal form, get the value; all others keep theirs |
| RouterBuild.CompileListNumbers | crates/ngxora-runtime/src/upstreams/compile/routes.rs:405-426 | compiled locations are numbered consecutively, skipping those that compile to nothing |
| RouterBuild.BuiltFromTable | crates/ngxora-runtime/src/upstreams/compile.rs:67-82 | however blocks, listeners, aliases and defaults share locations, one table gives the content of every route id |
| RouterBuild.RouteIdsIdentify | crates/ngxora-runtime/src/upstreams/compile.rs:67-82 | two locations of a compiled router with the same route id are the same location |
| RouterBuild.OwnerLists | crates/ngxora-runtime/src/upstreams/compile.rs:142-203 | the owner of a name listens on the key and lists the name |
| RouterBuild.RoutesFollowOwners | crates/ngxora-runtime/src/upstreams/compile.rs:142-203 | on every listener each name has the routes of its owner, the last block that lists it there |
| RouterBuild.CertsFollowOwners | crates/ngxora-runtime/src/upstreams/compile.rs:142-203 | on a TLS listener whose blocks all have certificates each name has the certificate of its owner |
| RouterFacts.AcceptedTogether | crates/ngxora-runtime/src/upstreams/compile.rs:106-254 | blocks that agree on protocol and TLS settings of their listeners and compile on their own are accepted together |
| RouterFacts.DefaultIs | crates/ngxora-runtime/src/upstreams/compile.rs:142-158 | the default routes of a listener are decided block by block: one with a listen marked default takes them, one without names only while there are none |
| RouterFacts.DefaultCertIs | crates/ngxora-runtime/src/upstreams/compile.rs:160-203 | the fallback certificate likewise, except that a block without names, and the first certificate of all, also take it |
| RouterFacts.OneDefaultWins | crates/ngxora-runtime/src/upstreams/compile.rs:142-203 | if one block of a listener is marked default and the others have names, routes and certificate of the default are its own |
| RouterFacts.FirstCertIs | crates/ngxora-runtime/src/upstreams/compile.rs:160-203 | where no block is the default, the first one for the listener provides the fallback certificate |
| RouterFacts.KeysAre | crates/ngxora-runtime/src/upstreams/compile.rs:142-205 | a compiled router has exactly the listeners its blocks listen on, a protocol for each and certificates for the TLS ones |
| RouterFacts.BlockAgrees | crates/ngxora-runtime/src/upstreams/compile.rs:210-253 | every listen of every block agrees with the protocol and TLS settings its listener ended up with |
| RouterFacts.IssuedHasOneName | crates/ngxora-runtime/src/upstreams/compile.rs:107-112 | a block accepted with an issued certificate has exactly one name |
| RouterFacts.HeldSatisfy | crates/ngxora-runtime/src/upstreams/compile.rs:142-158 | what holds of each block on every listener it is for holds of all routes of all listeners |
| Routing.ScoresDiffer | crates/ngxora-runtime/src/upstreams/http_routes.rs:9-16 | two patterns that match one host never tie, and every match outranks the default |
| Routing.PickBest | crates/ngxora-runtime/src/upstreams/routing.rs:154-169 | over any order of hash-map iteration the best matching name is found, or there is none |
| Routing.BestNameUnique | crates/ngxora-runtime/src/upstreams/http_routes.rs:9-16 | the best name of a host is unique |
| Routing.SelectServerRoutes | crates/ngxora-runtime/src/upstreams/routing.rs:154-169 | the routes of the best matching name, else the default |
| Routing.SelectListenerTls | crates/ngxora-runtime/src/server.rs:185-236 | the certificate of the best matching name, else the default, else any certificate at all |
| Routing.CertificateAndHostAgree | crates/ngxora-runtime/src/upstreams/compile.rs:142-203 | a name that some pattern matches gets its certificate and its routes from one and the same block |
| Routing.SelectRouteTarget | crates/ngxora-runtime/src/upstreams/routing.rs:11-49 | the location chosen for a path is the one the order prescribes: first exact, else longest preferred prefix, else first regex, else longest prefix |
| Routing.ScanLocations | crates/ngxora-runtime/src/upstreams/routing.rs:15-34 | the first exact match, or else the longest prefix of either kind, the earliest of equals |
| Routing.FindRegex | crates/ngxora-runtime/src/upstreams/routing.rs:40-46 | the first regular expression that matches, or none does |
| Routing.ChosenUnique | crates/ngxora-runtime/src/upstreams/routing.rs:11-49 | that order determines the choice |
| Routing.StrongestRule | crates/ngxora-runtime/src/upstreams/routing.rs:238-248 | among the rules that match, the one with the strongest score, the first of those that tie |
| Routing.CandidatesDiffer | crates/ngxora-runtime/src/upstreams/routing.rs:220-231 | two candidates with the same score are the same candidate |
| Routing.Insert | crates/ngxora-runtime/src/upstreams/routing.rs:231-231 | inserting into a descending list keeps it descending, with exactly the one candidate more |
| Routing.Sorted | crates/ngxora-runtime/src/upstreams/routing.rs:231-231 | sorting is a descending rearrangement of the same candidates |
| Routing.Candidates | crates/ngxora-runtime/src/upstreams/routing.rs:220-231 | exactly the matching names and the default, by descending score, from any order of hash-map iteration |
| Routing.NamedCandidates | crates/ngxora-runtime/src/upstreams/routing.rs:220-231 | exactly the matching names, no two with the same score |
| Routing.ResolveRoute | crates/ngxora-runtime/src/upstreams/routing.rs:202-268 | walking the matching hosts from most to least specific while they have rules, the first with a matching rule gives its strongest one; otherwise the plain choice of the most specific host |
| Routing.WinnerUnique | crates/ngxora-runtime/src/upstreams/routing.rs:202-268 | at most one host and rule can win |
| Routing.RouteDetermined | crates/ngxora-runtime/src/upstreams/routing.rs:202-268 | host, path, headers and query determine the location, whatever the order of hash-map iteration |
| RoutingFacts.ChosenMeans | crates/ngxora-runtime/src/upstreams/routing.rs:11-49 | the location chosen for a path is the first that is exactly it, else the longest preferred prefix of it, else the first regular expression that matches, else the longest prefix, else none |
| RoutingFacts.PrefixBySegments | crates/ngxora-runtime/src/upstreams/http_routes.rs:36-42 | a path prefix matches exactly the paths that begin with its segments |
| RoutingFacts.HitExactly | crates/ngxora-runtime/src/upstreams/http_routes.rs:88-108 | a rule takes exactly the requests with its path or a path below it, its method, its headers, and its query parameters with that value first |
| RoutingFacts.WinnerIsSpecific | crates/ngxora-runtime/src/upstreams/http_routes.rs:74-86 | the rule that wins is at least as specific as any other that matches, by kind of path, its length, method, headers and query parameters, and the earlier of equals |
| RoutingFacts.DeepestPrefixWins | crates/ngxora-runtime/src/upstreams/http_routes.rs:74-86 | of several path prefixes that match, the one with the most segments wins |
| RoutingFacts.QueryFirst | crates/ngxora-runtime/src/upstreams/http_routes.rs:103-107 | a query parameter has the value of its first entry |
| RoutingFacts.MatchesByLabels | crates/ngxora-runtime/src/upstreams/http_routes.rs:9-16 | a pattern matches its own name and, with a star for its first label, every name with more labels before the rest |
| RoutingFacts.BestNameIsNearest | crates/ngxora-runtime/src/upstreams/routing.rs:154-169 | the name chosen is the host itself where it is listed, else the longest pattern that matches |
| PathSegments.BelowBySegments | crates/ngxora-runtime/src/upstreams/http_routes.rs:36-42 | being a directory or below it is beginning with its segments |
| Hostnames.ValidByLabels | crates/ngxora-runtime/src/upstreams/http_routes.rs:18-34 | a valid host name is up to 253 characters in labels of 1 to 63 letters, digits and hyphens without a hyphen at an end |
| Control.CollectFromServer | crates/ngxora-runtime/src/control.rs:549-569 | every location gets the chain built from its own plugins, or some plugin list does not build, exactly then |
| Control.CollectFromHosts | crates/ngxora-runtime/src/control.rs:535-545 | the same over names and default of a listener, failing exactly when some list does not build |
| Control.BuildPluginChains | crates/ngxora-runtime/src/control.rs:501-512 | the same over all listeners, in any order, failing exactly when some list does not build |
| Control.EveryLocationHasItsChain | crates/ngxora-runtime/src/control.rs:501-569 | in a router compiled from blocks each location finds under its id the chain of its own plugin list, however ids are shared |
| Control.BuildGroups | crates/ngxora-runtime/src/control.rs:514-532 | unchanged groups are kept, changed ones are new objects, others are gone; it fails exactly when some new or changed group cannot be built |
| Control.RuntimeState.ApplySnapshot | crates/ngxora-runtime/src/control.rs:178-238 | poisoned lock, restart required, rejected or applied, each exactly under its condition and in this order; only an applied snapshot changes anything, and it changes generation, router, chains and groups together |
| Control.StepKeepsSound | crates/ngxora-runtime/src/control.rs:178-238 | every attempt keeps the state sound: same fingerprint as at start, groups built from the configuration held |
| Control.ActiveStateOverEveryRun | crates/ngxora-runtime/src/control.rs:178-238 | after any run the active fingerprint is the bootstrap one and the generation counts the applied snapshots |
| Control.FingerprintTells | crates/ngxora-runtime/src/control.rs:472-498 | equal fingerprints mean exactly: the same sockets, the same protocol and TLS settings on each, and the same geoip, CONNECT, h2c, keepalive and HTTP/2 settings |
| Control.TransportNeverChanges | crates/ngxora-runtime/src/control.rs:178-238 | through any run all of these stay what they were at the start |
| Control.RestartExactly | crates/ngxora-runtime/src/control.rs:178-238 | an attempt is answered with a restart exactly when it would change one of them |
| Control.GroupSurvives | crates/ngxora-runtime/src/control.rs:514-532 | a group whose configuration does not change stays the same object through any run |
| Control.ChangedGroupIsFresh | crates/ngxora-runtime/src/control.rs:514-532 | a group whose configuration changed is an object that never ran before |
| TlsMaterial.InvOverEveryRun | crates/ngxora-runtime/src/server/openssl_listener_tls.rs:142-196 | in every interleaving cache and handshakes hold nothing older than the disk when their material generation began |
| TlsMaterial.StepKeepsInv | crates/ngxora-runtime/src/server/openssl_listener_tls.rs:142-196 | every step of renewal, snapshot and handshake keeps the invariant; the mutex keeps everyone else away from a cache being loaded |
| TlsMaterial.HandshakeNeverGetsOlder | crates/ngxora-runtime/src/server/openssl_listener_tls.rs:142-196 | a handshake that read generation t gets nothing older than what was on disk when the generation became t |
| TlsMaterial.RenewalReachesLaterHandshakes | crates/ngxora-runtime/src/le.rs:535-541 | files replaced before an invalidation reach every handshake that reads its generation after it |
| TlsMaterial.Resolver.LoadCached | crates/ngxora-runtime/src/server/openssl_listener_tls.rs:165-196 | the cache and the answer are those of one load, which the next three rows are about |
| TlsMaterial.LoadKeepsCacheOk | crates/ngxora-runtime/src/server/openssl_listener_tls.rs:165-196 | a load keeps everything cached at least as recent as the disk when the material generation of its tag began, and returns nothing older |
| TlsMaterial.LoadIsThreeSteps | crates/ngxora-runtime/src/server/openssl_listener_tls.rs:165-196 | a load that misses is the look-up, certificate and key steps of the machine, whatever others did in between |
| TlsMaterial.LoadIsOneStep | crates/ngxora-runtime/src/server/openssl_listener_tls.rs:165-196 | a load that hits is the look-up step of the machine |
| TlsMaterial.HeldMeanwhile | crates/ngxora-runtime/src/server/openssl_listener_tls.rs:165-196 | over any stretch of a run in which only others move, the mutex, the cache and the handshake that holds the mutex stay as they were |
| TlsMaterial.LoadOverRuns | crates/ngxora-runtime/src/server/openssl_listener_tls.rs:165-196 | in every run, look-up, certificate and key of one handshake leave the cache and give the answer of one load from the disks at the moments of reading, whatever others did in between |
| TlsMaterial.FailedLoadOverRuns | crates/ngxora-runtime/src/server/openssl_listener_tls.rs:165-196 | in every run, a handshake that ends at its certificate leaves the cache and gives the answer of a load that fails, and frees the mutex |
| TlsMaterial.Renewer.ReplaceFile | crates/ngxora-runtime/src/le.rs:31-56 | writing a file is one replace step of the machine |
| TlsMaterial.Renewer.EnsureCertificate | crates/ngxora-runtime/src/le.rs:251-267 | the machine moves by replacing files only, the certificate among them exactly when one was issued |
| TlsMaterial.Renewer.ReconcileOnce | crates/ngxora-runtime/src/le.rs:162-183 | the machine moves by replacing files and then, exactly when a managed certificate was issued, raising the generation once: every file is in place by then |
| RenewalPaths.ManagedBySegments | crates/ngxora-runtime/src/le.rs:166-172 | the renewal service takes for its own exactly the certificate files below the cache directory, and all if that is empty |
| RenewalPaths.IssuedIsManaged | crates/ngxora-runtime/src/upstreams/compile.rs:173-187 | a block that asks for an issued certificate uses a file the service renews exactly when its name is not an absolute path, or one that leads below the cache directory all the same |
| RenewalPaths.AbsoluteNameIsUnmanaged | crates/ngxora-runtime/src/upstreams/compile.rs:173-187 | an input for the exception: the name `/tmp` |
| GoClient.ValidatedOk | sdk/go/client/client.go:72-101 | accepted options have 0 < minimum <= maximum, at most half of the 64-bit range, and positive intervals |
| GoClient.JitterBounded | sdk/go/client/client.go:210-225 | the delay is within a fifth of the backoff, up to rounding down |
| GoClient.RetryBounded | sdk/go/client/client.go:210-225 | doubling stays between minimum and maximum, and neither it nor the delay overflows |
| GoClient.Client.SetSnapshot | sdk/go/client/client.go:106-128 | a blank version and a known version with other contents are refused, an equal snapshot changes nothing, a new version becomes the desired one and is not synced; it is the `Set` step of the machine |
| GoClient.Client.Record | sdk/go/client/client.go:197-206 | an outcome is recorded only if its snapshot is still the desired one; it is the `Record` step of the machine, phase included |
| GoClient.Client.BeginRun | sdk/go/client/client.go:142-148 | refused while a run is active, and then nothing changes; otherwise it is the `StartRun` step of the machine |
| GoClient.Client.NotReady | sdk/go/client/client.go:243-249 | a channel that is not ready is recorded as unavailable and not synced; it is the `ChannelDown` step of the machine |
| GoClient.Client.EndRun | sdk/go/client/client.go:149-155 | a run that ends is not synced and leaves its error; it is the `Stop` step of the machine, and what a final failure of an attempt does |
| GoClient.StepKeepsInv | sdk/go/client/client.go:171-300 | every step of client, server and caller keeps the invariant |
| GoClient.InvOverEveryRun | sdk/go/client/client.go:171-300 | the invariant holds in every state of every interleaving |
| GoClient.ReportsComeFromServer | sdk/go/client/client.go:271-300 | a version the attempt believes reported was reported by the server during that attempt |
| GoClient.SyncedMeansConfirmed | sdk/go/client/client.go:197-206 | whenever the client says it is synced, the confirmed version is the desired one |
| GoClient.SuccessWasReported | sdk/go/client/client.go:271-300 | success is recorded only if the server reported that very version during that very attempt |
| GoClient.OnlyRecordSyncs | sdk/go/client/client.go:197-206 | the sync status is set in no other way |
| GoClient.SyncedWasReported | sdk/go/client/client.go:197-206 | whenever the client is synced, the server reported the confirmed version during the attempt whose success has been standing since |
| GoClient.EarlyNilIsDiscarded | sdk/go/client/client.go:281-286 | the early success for an obsolete snapshot is never recorded |
| GoClient.RetryAlwaysBounded | sdk/go/client/client.go:210-225 | over every run backoff stays within its bounds and delays within 64 bits, and no attempt samples a missing snapshot |
| GoProgress.BackoffOverEveryRun | sdk/go/client/client.go:183-227 | while it runs, after n retried failures in a row since a start, a reconnection or any other result, the backoff is the smallest doubled n times and cut off at the largest |
| GoProgress.BackoffIsMin | sdk/go/client/client.go:215-219 | that is the lesser of the doubled smallest and the largest, except where the doubled is one short of the largest |
| GoProgress.OddMaximumIsEarly | sdk/go/client/client.go:215-219 | an input for the exception: from one, with a largest of three, the first doubling gives three |
| GoProgress.RecordDecides | sdk/go/client/client.go:197-206 | recording makes the client synced with the version of a successful attempt whose snapshot is still desired, not synced after a failed one, and changes nothing for an obsolete one |
| GoProgress.ApplySyncsExactly | sdk/go/client/client.go:271-302 | an answered apply, recorded with its snapshot still desired, leaves the client synced exactly when it was applied, needs no restart and is the version asked for |
| GoProgress.ReportSyncs | sdk/go/client/client.go:271-302 | an answer that already names the version does so without an apply |
| GoProgress.SetDecides | sdk/go/client/client.go:106-128 | in every run a blank version and the version already desired change nothing; any other becomes the desired one, not synced |
| WireRoute.MatcherRoundTrip | crates/ngxora-runtime/src/grpc/decode.rs:516-536 | a compiled matcher exports to a message that compiles to it |
| WireRoute.UpstreamRoundTrip | crates/ngxora-runtime/src/grpc/decode.rs:538-568 | a direct upstream or group is read back exactly when it is stable |
| WireRoute.BareHostIsStable | crates/ngxora-runtime/src/grpc/decode.rs:538-568 | what a sender can check: a bare host with its own port is stable unless it has port 0 or names a group |
| WireRoute.UserInfoBecomesGroup | crates/ngxora-runtime/src/grpc/decode.rs:538-568 | an upstream host that is read back as an upstream group |
| WireRoute.PortZeroIsRefused | crates/ngxora-runtime/src/grpc/decode.rs:538-568 | an upstream host whose export is refused |
| WireRoute.BackendsRoundTrip | crates/ngxora-runtime/src/grpc/decode.rs:428-451 | weighted backends are read back exactly when all of them are stable |
| WireRoute.TargetRoundTrip | crates/ngxora-runtime/src/grpc/encode.rs:400-472 | a compiled target is read back exactly when its direct upstreams are stable |
| WireRoute.TlsRoundTrip | crates/ngxora-runtime/src/grpc/tls.rs:72-119 | upstream TLS options are read back |
| WireRoute.ProtocolRoundTrip | crates/ngxora-runtime/src/grpc/decode.rs:654-663 | the upstream protocol, with its default for the target, is read back |
| WireRoute.MethodsRoundTrip | crates/ngxora-runtime/src/grpc/decode.rs:289-426 | the allowed methods, each once, are read back |
| WireRoute.AccessRoundTrip | crates/ngxora-runtime/src/grpc/client_policy.rs:13-36 | address rules are read back in order |
| WireRoute.PluginsRoundTrip | crates/ngxora-runtime/src/grpc/decode.rs:636-652 | plugin specs are read back in order |
| WireRoute.CacheRoundTrip | crates/ngxora-runtime/src/grpc/decode.rs:588-634 | cache settings are read back |
| WireRoute.RewriteRoundTrip | crates/ngxora-runtime/src/grpc/http_routes.rs:10-40 | URL rewrites are read back |
| WireRoute.RouteRoundTrip | crates/ngxora-runtime/src/grpc/encode.rs:341-382 | a compiled route exports to a message that compiles to it exactly when its direct upstreams are stable |
| WireDefaults.RouteDefaults | crates/ngxora-runtime/src/grpc/decode.rs:289-426 | a route and the same with its defaults written out compile to the same: verification on, caching on by URI for a minute with the usual statuses, the root path, weight one, redirect 302 |
| WireDefaults.SwitchesMean | crates/ngxora-runtime/src/grpc/values.rs:9-14 | verification and caching of an accepted route are on unless the code is 2 |
| WireDefaults.FieldsMean | crates/ngxora-runtime/src/grpc/decode.rs:289-426 | which field of a route means what: timeouts, limits and TLS material, zero for none |
| WireDefaults.CacheFieldsMean | crates/ngxora-runtime/src/grpc/decode.rs:588-624 | which field of the cache settings means what |
| WireDefaults.CodesMean | crates/ngxora-runtime/src/grpc/values.rs:9-28 | what the numbers for access rules, protocols, key modes, policies, TLS versions and client verification stand for |
| WireDefaults.OptionsMean | crates/ngxora-runtime/src/grpc/decode.rs:54-134 | which field of the options means what |
| WireDefaults.ListenerMeans | crates/ngxora-runtime/src/grpc/decode.rs:672-706 | address, port, TLS and protocol of a listener are those sent, and there are no TLS settings without TLS |
| WireDefaults.SnapshotDefaults | crates/ngxora-runtime/src/grpc/decode.rs:43-134 | a snapshot and the same with every default written out are the same router, or both refused |
| WireGuarantees.CompiledIsSane | crates/ngxora-runtime/src/grpc/decode.rs:289-426 | what every accepted route guarantees: paths, header and query names, weights, statuses, known groups, protocols that fit the transport, windows, certificates with keys |
| WireParts.RealIpRoundTrip | crates/ngxora-runtime/src/grpc/client_policy.rs:38-66 | the real-ip policy is read back |
| WireParts.OptionsRoundTrip | crates/ngxora-runtime/src/grpc/encode.rs:532-555 | the http options are read back |
| WireParts.GeoRoundTrip | crates/ngxora-runtime/src/grpc/encode.rs:84-98 | the GeoIP settings are read back |
| WireParts.LeRoundTrip | crates/ngxora-runtime/src/grpc/tls.rs:121-139 | the certificate-issuing settings are read back |
| WireParts.SettingsRoundTrip | crates/ngxora-runtime/src/grpc/tls.rs:24-57 | listener TLS settings are read back |
| WireParts.GroupRoundTrip | crates/ngxora-runtime/src/grpc/encode.rs:116-210 | an upstream group is read back |
| WireParts.GroupsRoundTrip | crates/ngxora-runtime/src/upstreams/compile/upstream_groups.rs:131-220 | groups exported in any order are read back as they were |
| WireSnapshot.NormalizeTwice | crates/ngxora-runtime/src/upstreams/http_routes.rs:4-7 | the normal form of a host name is its own normal form |
| WireSnapshot.NormalNameOk | crates/ngxora-runtime/src/upstreams/http_routes.rs:18-34 | a host name that passed the checks passes them again in its normal form |
| WireSnapshot.BlockGood | crates/ngxora-runtime/src/grpc/decode.rs:251-287 | the compiled block of a virtual host is uniform, speaks HTTP/2 where it must, and each route could be read from the wire |
| WireSnapshot.AcceptedIsOk | crates/ngxora-runtime/src/grpc/decode.rs:43-134 | what an accepted snapshot guarantees about its router: everything the export and its reading rely on |
| WireGuarantees.AcceptedRoutesAreSane | crates/ngxora-runtime/src/grpc/decode.rs:43-134 | all of that holds of every route on every listener of an accepted snapshot |
| WireGuarantees.AcceptedListenersAreRight | crates/ngxora-runtime/src/grpc/decode.rs:43-134 | its names are in normal form with good labels under a star, no timeout is set where HTTP/2 would keep it from being enforced, and a service communication proxy has a known profile and a listener that speaks HTTP/2 |
| WireGuarantees.AcceptedGroupsAreRight | crates/ngxora-runtime/src/grpc/decode.rs:136-186 | every upstream group of an accepted snapshot has a name, usable servers unless it may be empty, weights that add up to 16 bits, a hash key only to hash by, and a usable health check |
| WireExport.ListenerNamesDiffer | crates/ngxora-runtime/src/grpc/encode.rs:212-217 | exported listener names never clash |
| WireExport.FrameRoundTrip | crates/ngxora-runtime/src/grpc/encode.rs:38-114 | options, groups, profiles and listener definitions are read back as they were |
| WireExport.ReadVhosts | crates/ngxora-runtime/src/grpc/decode.rs:251-287 | each exported virtual host is read as a block for its listener, with the routes and certificate it stands for |
| WireExport.ExportAccepted | crates/ngxora-runtime/src/grpc/decode.rs:43-134 | the export of a stable router is accepted, with the same listeners, protocols and TLS settings |
| WireExport.SnapshotRoundTrip | crates/ngxora-runtime/src/grpc/encode.rs:38-114 | reading the export of a stable router gives the same routes by listener and name up to route ids, the same certificates by name and of default hosts, the same settings and restart fingerprint |
| WireExport.OkNeedsStability | crates/ngxora-runtime/src/grpc/encode.rs:38-114 | if the export is read back as the same router, the router was stable |
| WireExport.RoundTripExactlyWhenStable | crates/ngxora-runtime/src/grpc/encode.rs:38-114 | the export of an accepted snapshot is read back as the same router exactly when the router is stable |
| WireFallback.FallbackAgain | crates/ngxora-runtime/src/grpc/decode.rs:43-134 | read again, a TLS listener without default host falls back on the certificate exported first for it |
| WireFallback.FallbacksExactly | crates/ngxora-runtime/src/grpc/encode.rs:38-114 | a router read back as the same has the same fallback certificates exactly when every such listener exports its fallback first |
| WireFallback.FullRoundTripExactly | crates/ngxora-runtime/src/grpc/encode.rs:38-114 | the export is read back as the same router, fallback certificates included, exactly when the router is stable and every TLS listener without default host exports its fallback first |
| Ordering.SortBy | crates/ngxora-runtime/src/grpc/encode.rs:557-561 | all keys, each once, in ascending order |
| Ordering.LeastExists | crates/ngxora-runtime/src/grpc/encode.rs:557-561 | a listener with names has a least one |
| Ordering.FirstIsLeast | crates/ngxora-runtime/src/grpc/encode.rs:557-561 | the first of sorted names is the least |
| WireFallback.ListenerLeast | crates/ngxora-runtime/src/grpc/encode.rs:253-274 | on a TLS listener without default host whose least name is exported first, the certificate exported first is the fallback exactly when the certificate of the least name is |
| WireFallback.KeptExactlyLeast | crates/ngxora-runtime/src/grpc/encode.rs:253-274 | an export with least names first exports every fallback first exactly when, on the router, the certificate of the least name is the fallback of every TLS listener without default host |
| WireFallback.SortedRoundTripExactly | crates/ngxora-runtime/src/grpc/encode.rs:38-114 | the sorted export of an accepted snapshot is read back as the same router, fallback certificates included, exactly when the router is stable and on every TLS listener without default host the certificate of the least name is the fallback |
| TwoNames.BlocksAdded | crates/ngxora-runtime/src/upstreams/compile.rs:160-203 | two blocks for different names on one TLS listener are installed together, and the fallback is the certificate of the first |
| WireWitness.TwoBlocksAccepted | crates/ngxora-runtime/src/grpc/decode.rs:43-134 | a message with two such virtual hosts, neither of them the default, is accepted as that router |
| WireWitness.TwoBlocksRoundTrip | crates/ngxora-runtime/src/grpc/encode.rs:38-114 | its sorted export is read back with the same fallback certificate exactly when the names came in order or share their certificate |
| WireWitness.FallbackMoves | crates/ngxora-runtime/src/grpc/encode.rs:253-274 | `b.example` listed before `a.example` with different certificates: accepted, and no sorted export is read back as the same router with the same fallback |
| WireEncode.Find | crates/ngxora-runtime/src/grpc/encode.rs:311-316 | the first virtual host that agrees on listener, default mark, certificate and routes, or none does |
| WireEncode.MergeOrPush | crates/ngxora-runtime/src/grpc/encode.rs:301-331 | a name joins the first virtual host with its certificate and routes or starts one; no two virtual hosts could have been one, their names stay sorted, and the first name stays in the first of them |
| WireEncode.ExportNames | crates/ngxora-runtime/src/grpc/encode.rs:258-274 | the loop over the sorted names spreads exactly them |
| WireEncode.ExportDefault | crates/ngxora-runtime/src/grpc/encode.rs:276-296 | the default marks the first virtual host that agrees or adds one without names |
| WireEncode.ExportVhosts | crates/ngxora-runtime/src/grpc/encode.rs:253-299 | names, sorted, and default of a listener are spread over virtual hosts that stand for exactly them, no two of which could have been one; their names are sorted and the first name of all is in the first of them |
| WireEncode.ExportAllVhosts | crates/ngxora-runtime/src/grpc/encode.rs:55-72 | listener after listener, the virtual hosts stand for exactly the hosts of each, and the least name of each stays first |
| WireEncode.ExportSnapshot | crates/ngxora-runtime/src/grpc/encode.rs:38-120 | the message written is an export in the sense of the round trip, with listeners, groups, profiles and the names of every virtual host sorted, and with the least name of every listener in its first virtual host |

## Left out

- Pingora sessions, DNS, health probes, load balancing, and the gRPC and Unix-socket transports: input and output only.
- Issuing certificates over ACME, OpenSSL and PEM parsing, JWT, basic auth, base64, the GeoIP database: only whether they succeed is a parameter where it matters.
- SCP request handling and NRF discovery, including NRF upstream groups and the NRF checks on route schemes.
- Lowering of directives to the intermediate form, and that form itself between decoding and compiling: a wire route is decoded and compiled in one function. The duplicate-directive errors cannot arise from the wire.
- Which of several errors is reported for a refused wire snapshot: a snapshot is accepted or not.
- WireExport.SnapshotRoundTrip: leaves the fallback certificate of a listener without default host to `WireFallback.SortedRoundTripExactly`, because stability alone does not keep it.
- Routing.ResolveRoute: starts from the hosts of the listener and the host to route by; the wildcard listener lookup, parsing of the Host header and the check of Host against SNI are not part of this model.
- Routing.SelectRouteTarget: regular expressions are an arbitrary predicate on the path.
- Control.RuntimeState.ApplySnapshot: of trusted CAs, client identities, backend counters and SCP profile reuse only success or failure is modelled, and of locks only a poisoned apply lock.
- TlsMaterial.StepKeepsInv: files are versions that only grow; that a replaced file is never seen half-written is taken from the atomic rename.
- RenewalPaths.ManagedBySegments: file names are compared as text up to slashes at the end of the directory; repeated slashes and dots inside are not normalized.
- GoClient.JitterBounded: arithmetic is over reals, without the rounding of floating point.
- Control.ActiveStateOverEveryRun: generations and route ids are natural numbers; their 64-bit overflow is not modelled.
- Include.ResolvesToFullExpansion: the file system does not change during a resolution, and a canonical path names its file.
- Cache key construction, the cacheability of requests and responses, `parse_size_literal`, redirects and URL rewriting of requests: single functions that would only add easy members.
- Metrics, logs, tracing, the admin endpoint and the command line.
- Text is a sequence of characters; byte lengths are modelled in the tokenizer and the duration literal, where the source uses them.

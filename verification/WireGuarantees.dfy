/** What the data plane may rely on in every route and every name of an accepted snapshot. */
module WireGuarantees {
  import opened Common
  import opened Config
  import opened RouterBuild
  import opened RouterFacts
  import opened Segments
  import opened Hostnames
  import opened WireRoute
  import opened WireParts
  import opened WireSnapshot
  import Lexer

  // ---- one route ----

  /** An absolute path without query, fragment or empty segment inside. */
  predicate PathOk(p: string) {
    p != [] && p[0] == '/' && '?' !in p && '#' !in p && forall i :: 0 < i < |p| ==> !(p[i - 1] == '/' && p[i] == '/')
  }

  predicate HostOk(h: string) { 0 < |h| <= 253 && forall l :: l in Split('.', h) ==> LabelOk(l) }

  predicate NamesDiffer(l: seq<(string, string)>) { forall i, j :: 0 <= i < j < |l| ==> l[i].0 != l[j].0 }

  predicate RuleOk(m: HttpMatch) {
    && PathOk(m.path.path) && (m.path.PathPrefix? && m.path.path != "/" ==> m.path.path[|m.path.path| - 1] != '/')
    && NamesDiffer(m.headers) && NamesDiffer(m.query)
  }

  /** A group is one that is configured, under its own name. */
  predicate UpstreamKnown(t: Target, ups: map<string, UpstreamGroup>) {
    t.Group? ==> exists k :: k in ups && ups[k].name == t.name
  }

  predicate BackendOk(b: WeightedBackend, ups: map<string, UpstreamGroup>) {
    && b.weight <= 1_000_000 && UpstreamKnown(b.target, ups)
    && (b.target.ProxyPass? || b.target.Group? || (b.target.DirectResponse? && 200 <= b.target.status <= 599))
  }

  predicate RedirectRight(r: Redirect) {
    && (r.status == 301 || r.status == 302 || r.status == 303 || r.status == 307 || r.status == 308)
    && (r.port.Some? ==> 1 <= r.port.value <= 65535) && (r.hostname.Some? ==> HostOk(r.hostname.value))
    && (r.scheme.Some? ==> r.scheme.value == "http" || r.scheme.value == "https")
  }

  predicate TargetOk(t: Target, ups: map<string, UpstreamGroup>) {
    match t
    case WeightedBackends(bs) => bs != [] && forall i :: 0 <= i < |bs| ==> BackendOk(bs[i], ups)
    case DirectResponse(status) => 200 <= status <= 599
    case HttpRedirect(r) => RedirectRight(r)
    case Return(status, location) => 300 <= status <= 399 && location != ""
    case Scp(_) => true
    case ProxyPass(host, _, _, _) => UpstreamKnown(t, ups)
    case Group(_, _) => UpstreamKnown(t, ups)
  }

  /** HTTP/2 over TLS only, HTTP/2 without TLS only without. */
  predicate Speaks(p: Option<UpstreamProtocol>, t: Target) {
    t.ProxyPass? || t.Group? ==> (p == Some(H2) ==> t.tls) && (p == Some(H2c) ==> !t.tls)
  }

  predicate ProtocolOk(p: Option<UpstreamProtocol>, t: Target) {
    && Speaks(p, t) && (t.Scp? ==> p.None?)
    && (t.WeightedBackends? ==> forall i :: 0 <= i < |t.backends| ==> Speaks(p, t.backends[i].target))
  }

  predicate WindowsOk(h: UpstreamHttp2) {
    && h.maxStreams != Some(0) && (h.streamWindow.Some? ==> 1 <= h.streamWindow.value <= 0x7FFF_FFFF)
    && (h.connectionWindow.Some? ==> 1 <= h.connectionWindow.value <= 0x7FFF_FFFF)
  }

  predicate CacheRight(c: RouteCache) {
    c.ttl.Some? && c.ttl.value > 0 && c.statuses != [] && forall i :: 0 <= i < |c.statuses| ==> c.statuses[i] <= 65535
  }

  predicate Sane(c: Content, ups: map<string, UpstreamGroup>) {
    && (c.matcher.Http? ==> RuleOk(c.matcher.rule)) && TargetOk(c.target, ups) && ProtocolOk(c.protocol, c.target)
    && WindowsOk(c.http2) && (c.tls.cert.Some? <==> c.tls.key.Some?) && (c.cache.Some? ==> CacheRight(c.cache.value))
    && (c.cache.Some? ==> !c.target.Scp?)
    && (c.rewrite.Some? ==> c.target.ProxyPass? || c.target.Group? || c.target.WeightedBackends?)
    && (c.rewrite.Some? && c.rewrite.value.hostname.Some? ==> HostOk(c.rewrite.value.hostname.value))
    && forall i, j :: 0 <= i < j < |c.limits.methods| ==> c.limits.methods[i] != c.limits.methods[j]
  }

  lemma PathIsOk(x: Syntax, p: string)
    requires SafePath(x, p)
    ensures PathOk(p)
  {
  }

  lemma RuleIsOk(x: Syntax, m: Option<WireMatch>)
    requires Faithful(x) && MatcherOf(x, m).Some? && MatcherOf(x, m).value.Http?
    ensures RuleOk(MatcherOf(x, m).value.rule)
  {
    var p := if m.value.path.None? then PathPrefix("/") else m.value.path.value;
    PlainPrefixSafe(x, p.path);
    TrimSlashesPrefix(p.path);
    PathIsOk(x, p.path);
    PathIsOk(x, PlainPrefix(p.path));
    FirstOnlyDistinct(HeadersOf(x, m.value.headers).value);
    FirstOnlyDistinct(m.value.query);
  }

  lemma UpstreamIsKnown(x: Syntax, u: WireUpstream, ups: map<string, UpstreamGroup>)
    requires UpstreamOf(x, u, ups).Some?
    ensures UpstreamKnown(UpstreamOf(x, u, ups).value, ups)
  {
  }

  lemma BackendsAreOk(x: Syntax, ups: map<string, UpstreamGroup>, bs: seq<WireBackend>)
    requires Each(Backends(x, ups), bs).Some?
    ensures forall b :: b in Each(Backends(x, ups), bs).value ==> BackendOk(b, ups)
  {
    EachElement(Backends(x, ups), bs);
    var l := Each(Backends(x, ups), bs).value;
    forall i | 0 <= i < |l| ensures BackendOk(l[i], ups) {
      assert Backends(x, ups)(bs[i]) == Some(l[i]);
      if bs[i].target.value.BackendUpstream? { UpstreamIsKnown(x, bs[i].target.value.upstream, ups); }
    }
  }

  lemma TargetIsOk(x: Syntax, ups: map<string, UpstreamGroup>, a: Option<WireAction>, m: Matcher)
    requires TargetOf(x, ups, a).Some? && RedirectOk(x, TargetOf(x, ups, a).value, m)
    ensures TargetOk(TargetOf(x, ups, a).value, ups)
  {
    match a.value
    case ToUpstream(u) => UpstreamIsKnown(x, u, ups);
    case ToBackends(bs) => BackendsAreOk(x, ups, bs);
    case ToHttpRedirect(_, _, hostname, _, _) => if hostname.Some? { ValidByLabels(hostname.value); }
    case _ =>
  }

  lemma ProtocolIsOk(p: Option<UpstreamProtocol>, t: Target)
    requires ProtocolFor(p, t).Some?
    ensures ProtocolOk(ProtocolFor(p, t).value, t)
  {
    if t.WeightedBackends? && p.Some? {
      forall i | 0 <= i < |t.backends| ensures Speaks(p, t.backends[i].target) {
        assert ProtocolFor(p, t.backends[i].target).Some?;
      }
    }
  }

  lemma CompiledIsSane(x: Syntax, ups: map<string, UpstreamGroup>, w: WireRoute)
    requires Faithful(x) && CompileRoute(x, ups, w).Some?
    ensures Sane(CompileRoute(x, ups, w).value, ups)
  {
    var c := CompileRoute(x, ups, w).value;
    if c.matcher.Http? { RuleIsOk(x, w.rule); }
    TargetIsOk(x, ups, w.action, c.matcher);
    ProtocolIsOk(ProtocolOf(w.protocol).value, c.target);
    OnceEachDistinct(w.methods);
    if c.rewrite.Some? && c.rewrite.value.hostname.Some? { ValidByLabels(c.rewrite.value.hostname.value); }
  }

  // ---- every route of a snapshot ----

  function AllSane(ups: map<string, UpstreamGroup>): RouteProperty {
    (_: ListenKey, routes: Routes) => forall i :: 0 <= i < |routes| ==> Sane(routes[i].content, ups)
  }

  lemma BlockIsSane(x: Syntax, b: Build, servers: seq<Server<WireRoute>>, i: nat)
    requires Faithful(x) && AddServers(WireFrontend(x), b, servers).Ok? && i < |servers|
    ensures Satisfies(servers[i], Blocks(WireFrontend(x), b, servers)[i], AllSane(b.router.upstreams))
  {
    var block := Blocks(WireFrontend(x), b, servers)[i];
    var next := BlockCompiled(WireFrontend(x), b, servers, i);
    forall j | 0 <= j < |block| ensures Sane(block[j].content, b.router.upstreams) {
      BlockContents(x, b.router, next, servers[i], block, j);
      CompiledIsSane(x, b.router.upstreams, servers[i].locations[j]);
    }
  }

  /** Every route an accepted snapshot holds, on whatever listener and under whatever name, is sane. */
  lemma AcceptedRoutesAreSane(x: Syntax, w: Wire)
    requires Faithful(x) && Accept(x, w).Some?
    ensures var r := Accept(x, w).value; RouterSatisfies(r, AllSane(r.upstreams))
  {
    var b, servers := FrameOf(x, w).value.build, Servers(x, w).value;
    BuildKeepsSettings(WireFrontend(x), b, servers);
    forall i | 0 <= i < |servers|
      ensures Satisfies(servers[i], Blocks(WireFrontend(x), b, servers)[i], AllSane(b.router.upstreams))
    {
      BlockIsSane(x, b, servers, i);
    }
    HeldSatisfy(WireFrontend(x), b, servers, AllSane(b.router.upstreams));
  }

  // ---- names and timeouts ----

  predicate NameRight(n: string) {
    && (forall i :: 0 <= i < |n| ==> !('A' <= n[i] <= 'Z')) && (n != [] ==> n[|n| - 1] != '.')
    && ('*' in n ==> |n| > 2 && n[..2] == "*." && HostOk(n[2..]))
  }

  lemma NameIsRight(n: string)
    requires NormalName(n)
    ensures NameRight(n)
  {
    TrimDotsStops(n);
    assert |Normalize(n)| == |TrimDots(n)| && TrimDots(n) == n;
    forall i | 0 <= i < |n| ensures !('A' <= n[i] <= 'Z') {
      assert Lower(n)[i] == LowerChar(n[i]);
    }
    if '*' in n {
      var h := n[2..];
      TrimDotsStops(h);
      LastStays(n);
      ValidByLabels(h);
    }
  }

  lemma LastStays(n: string)
    requires |n| >= 2 && n[1] == '.' && n[|n| - 1] != '.'
    ensures |n| > 2 && TrimDots(n[2..]) == n[2..]
  {
  }

  /** Does the listener take HTTP/2, with TLS by its own settings, without by the option. */
  predicate TakesHttp2(r: Router, k: ListenKey) {
    if k.ssl then k in r.protocols && (r.protocols[k].http2 || r.protocols[k].http2Only) else r.options.h2c
  }

  predicate NoBodyTimeout(routes: Routes) {
    forall i :: 0 <= i < |routes| ==> routes[i].content.limits.bodyTimeout.None?
                                      || routes[i].content.limits.bodyTimeout == Some(0)
  }

  /** A service communication proxy has a known profile and is reached over HTTP/2. */
  predicate ScpServed(r: Router, k: ListenKey, routes: Routes) {
    forall i :: 0 <= i < |routes| && routes[i].content.target.Scp? ==>
                  routes[i].content.target.profile in r.profiles
                  && (if k.ssl then k in r.protocols && r.protocols[k].http2 else r.options.h2c)
  }

  lemma GoodServesScp(x: Syntax, r: Router, k: ListenKey, routes: Routes)
    requires GoodRoutes(x, r, k, routes)
    ensures ScpServed(r, k, routes)
  {
    forall i | 0 <= i < |routes| && routes[i].content.target.Scp?
      ensures routes[i].content.target.profile in r.profiles
      ensures if k.ssl then k in r.protocols && r.protocols[k].http2 else r.options.h2c
    {
      assert GoodContent(x, r, ListenAt(r, k), routes[i].content);
    }
  }

  predicate ScpRight(r: Router, k: ListenKey, hosts: VirtualHosts) {
    && (forall n :: n in hosts.named ==> ScpServed(r, k, hosts.named[n]))
    && (hosts.default.Some? ==> ScpServed(r, k, hosts.default.value))
  }

  lemma ScpIsRight(x: Syntax, r: Router, k: ListenKey)
    requires k in r.listeners && ListenerOk(r, k, Good(x, r))
    ensures ScpRight(r, k, r.listeners[k])
  {
    var hosts := r.listeners[k];
    forall n | n in hosts.named ensures ScpServed(r, k, hosts.named[n]) { GoodServesScp(x, r, k, hosts.named[n]); }
    if hosts.default.Some? { GoodServesScp(x, r, k, hosts.default.value); }
  }

  predicate HostsRight(r: Router, k: ListenKey, hosts: VirtualHosts) {
    && (forall n :: n in hosts.named ==> NameRight(n))
    && (TakesHttp2(r, k) ==> (forall n :: n in hosts.named ==> NoBodyTimeout(hosts.named[n]))
                             && (hosts.default.Some? ==> NoBodyTimeout(hosts.default.value)))
  }

  lemma HostsAreRight(x: Syntax, r: Router, k: ListenKey)
    requires k in r.listeners && ListenerOk(r, k, Good(x, r))
    ensures HostsRight(r, k, r.listeners[k])
  {
    var hosts := r.listeners[k];
    forall n | n in hosts.named ensures NameRight(n) { NameIsRight(n); }
    if TakesHttp2(r, k) {
      forall n | n in hosts.named ensures NoBodyTimeout(hosts.named[n]) {
        GoodHasNoBodyTimeout(x, r, k, hosts.named[n]);
      }
      if hosts.default.Some? { GoodHasNoBodyTimeout(x, r, k, hosts.default.value); }
    }
  }

  predicate ListenerRight(r: Router, k: ListenKey)
    requires k in r.listeners
  {
    && k.port <= 65535 && HostsRight(r, k, r.listeners[k]) && ScpRight(r, k, r.listeners[k])
    && (r.options.h2c ==> r.options.headerTimeout.None? || r.options.headerTimeout == Some(0))
  }

  lemma ListenerIsRight(x: Syntax, r: Router, k: ListenKey)
    requires k in r.listeners && ListenerOk(r, k, Good(x, r)) && HeaderTimeoutOk(r.options)
    ensures ListenerRight(r, k)
  {
    HostsAreRight(x, r, k);
    ScpIsRight(x, r, k);
  }

  /** Names in normal form with good labels under a star, and no timeout where it could not be enforced. */
  lemma AcceptedListenersAreRight(x: Syntax, w: Wire, r: Router, k: ListenKey)
    requires Faithful(x) && Accept(x, w) == Some(r) && k in r.listeners
    ensures ListenerRight(r, k)
  {
    AcceptedIsOk(x, w);
    ListenerIsRight(x, r, k);
  }

  lemma GoodHasNoBodyTimeout(x: Syntax, r: Router, k: ListenKey, routes: Routes)
    requires GoodRoutes(x, r, k, routes) && TakesHttp2(r, k)
    ensures NoBodyTimeout(routes)
  {
    forall i | 0 <= i < |routes|
      ensures routes[i].content.limits.bodyTimeout.None? || routes[i].content.limits.bodyTimeout == Some(0)
    {
      assert GoodContent(x, r, ListenAt(r, k), routes[i].content);
    }
  }

  // ---- upstream groups ----

  function WeightSum(servers: seq<Backend>): nat {
    if servers == [] then 0 else servers[0].weight + WeightSum(servers[1..])
  }

  lemma {:induction false} WeightSumBack(servers: seq<Backend>)
    requires servers != []
    ensures WeightSum(servers) == WeightSum(servers[..|servers| - 1]) + servers[|servers| - 1].weight
  {
    if |servers| > 1 {
      WeightSumBack(servers[1..]);
      assert servers[1..][..|servers| - 2] == servers[..|servers| - 1][1..];
    } else {
      assert servers[1..] == [] && servers[..0] == [];
    }
  }

  lemma {:induction false} WeightSumIsTotal(servers: seq<Backend>)
    ensures WeightSum(servers) == TotalWeight(servers)
  {
    if servers != [] {
      WeightSumIsTotal(servers[..|servers| - 1]);
      WeightSumBack(servers);
    }
  }

  predicate ServerRight(b: Backend) { 1 <= b.port <= 65535 && 1 <= b.weight <= 65535 && !Lexer.Blank(b.host) }

  predicate HealthRight(h: HealthCheck) {
    h.timeout > 0 && h.interval > 0 && h.successes > 0 && h.failures > 0
    && (h.kind.HttpCheck? ==> !Lexer.Blank(h.kind.host))
  }

  /** Usable servers, weights that add up to 16 bits, and a hash key only to hash by. */
  predicate GroupRight(g: UpstreamGroup) {
    && !Lexer.Blank(g.name) && (g.servers == [] ==> g.allowEmpty) && WeightSum(g.servers) <= 65535
    && (forall i :: 0 <= i < |g.servers| ==> ServerRight(g.servers[i]))
    && (g.hashKey.Some? ==> g.policy == ConsistentHash) && (g.healthCheck.Some? ==> HealthRight(g.healthCheck.value))
  }

  lemma GroupIsRight(x: Syntax, w: WireGroup)
    requires GroupOf(x, w).Some?
    ensures GroupRight(GroupOf(x, w).value)
  {
    var g := GroupOf(x, w).value;
    EachElement(ServerOf, w.servers);
    forall i | 0 <= i < |g.servers| ensures ServerRight(g.servers[i]) {
      assert ServerOf(w.servers[i]) == Some(g.servers[i]);
    }
    GroupRoundTrip(x, w);
    WeightSumIsTotal(g.servers);
  }

  /** Every upstream group of an accepted snapshot is right. */
  lemma AcceptedGroupsAreRight(x: Syntax, w: Wire, r: Router, k: string)
    requires Faithful(x) && Accept(x, w) == Some(r) && k in r.upstreams
    ensures GroupRight(r.upstreams[k]) && Normalize(r.upstreams[k].name) == k
  {
    AcceptedIsOk(x, w);
    GroupIsRight(x, WireGroupOf(r.upstreams[k]));
  }
}

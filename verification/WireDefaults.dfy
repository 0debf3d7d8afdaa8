/** Fields left unset on the wire mean their defaults: a message and the same with its defaults written out. */
module WireDefaults {
  import opened Common
  import opened Config
  import opened RouterBuild
  import opened WireRoute
  import opened WireParts
  import opened WireSnapshot

  // ---- routes ----

  /** Verification is on unless it is switched off by name. */
  function SpelledTls(t: Option<WireTls>): Option<WireTls> {
    match t
    case None => Some(WireTls(1, None, None, None))
    case Some(w) => Some(w.(verify := if w.verify == 2 then 2 else 1))
  }

  function SpelledCache(c: Option<WireCache>): Option<WireCache> {
    match c
    case None => None
    case Some(w) =>
      Some(w.(enabled := if w.enabled == 0 then 1 else w.enabled, keyMode := if w.keyMode == 0 then 1 else w.keyMode,
           ttl := if w.ttl == 0 then 60_000 else w.ttl,
           statuses := if w.statuses == [] then [200, 301, 404] else w.statuses))
  }

  function SpelledMatch(m: Option<WireMatch>): Option<WireMatch> {
    if m.Some? && m.value.WireHttp? && m.value.path.None? then Some(m.value.(path := Some(PathPrefix("/")))) else m
  }

  function SpelledBackend(b: WireBackend): WireBackend { if b.weight.None? then b.(weight := Some(1)) else b }

  function SpelledAction(a: Option<WireAction>): Option<WireAction> {
    match a
    case Some(ToBackends(bs)) => Some(ToBackends(Map(SpelledBackend, bs)))
    case Some(ToHttpRedirect(code, s, h, p, m)) => Some(ToHttpRedirect(if code == 0 then 302 else code, s, h, p, m))
    case _ => a
  }

  function SpelledRoute(w: WireRoute): WireRoute {
    w.(rule := SpelledMatch(w.rule), action := SpelledAction(w.action), tls := SpelledTls(w.tls),
    cache := SpelledCache(w.cache), timeouts := Some(if w.timeouts.None? then (0, 0, 0) else w.timeouts.value),
    http2 := Some(if w.http2.None? then UpstreamHttp2(None, None, None) else w.http2.value))
  }

  /** Elements that convert alike convert alike in a list. */
  lemma {:induction false} EachAlike<A, B>(f: A -> Option<B>, g: A -> A, l: seq<A>)
    requires forall i :: 0 <= i < |l| ==> f(g(l[i])) == f(l[i])
    ensures Each(f, Map(g, l)) == Each(f, l)
  {
    if l != [] {
      var front := l[..|l| - 1];
      EachAlike(f, g, front);
      assert Map(g, l)[..|l| - 1] == Map(g, front);
    }
  }

  lemma SpelledTarget(x: Syntax, ups: map<string, UpstreamGroup>, a: Option<WireAction>)
    ensures TargetOf(x, ups, SpelledAction(a)) == TargetOf(x, ups, a)
  {
    if a.Some? && a.value.ToBackends? {
      forall i | 0 <= i < |a.value.backends|
        ensures Backends(x, ups)(SpelledBackend(a.value.backends[i])) == Backends(x, ups)(a.value.backends[i])
      {
      }
      EachAlike(Backends(x, ups), SpelledBackend, a.value.backends);
    }
  }

  lemma SpelledCaching(c: Option<WireCache>)
    ensures CacheOf(SpelledCache(c)) == CacheOf(c)
  {
  }

  lemma SpelledMatching(x: Syntax, m: Option<WireMatch>)
    ensures MatcherOf(x, SpelledMatch(m)) == MatcherOf(x, m)
  {
  }

  lemma SpelledVerifying(t: Option<WireTls>)
    ensures TlsOf(SpelledTls(t)) == TlsOf(t)
  {
  }

  /** A route with its defaults written out is the same route: verification, caching, paths, weights and codes. */
  lemma RouteDefaults(x: Syntax, ups: map<string, UpstreamGroup>, w: WireRoute)
    ensures CompileRoute(x, ups, SpelledRoute(w)) == CompileRoute(x, ups, w)
  {
    SpelledMatching(x, w.rule);
    SpelledTarget(x, ups, w.action);
    SpelledVerifying(w.tls);
    SpelledCaching(w.cache);
    assert TimeoutsOf(SpelledRoute(w).timeouts) == TimeoutsOf(w.timeouts);
    assert PartsOf(x, ups, SpelledRoute(w)) == PartsOf(x, ups, w);
  }

  /** What the switches of an accepted route mean: on, unless the code is 2. */
  lemma SwitchesMean(x: Syntax, ups: map<string, UpstreamGroup>, w: WireRoute)
    requires CompileRoute(x, ups, w).Some?
    ensures var c := CompileRoute(x, ups, w).value;
            && (c.tls.verify <==> w.tls.None? || w.tls.value.verify != 2)
            && (c.cache.Some? <==> w.cache.Some?)
            && (c.cache.Some? ==> (c.cache.value.enabled <==> w.cache.value.enabled != 2))
  {
  }

  /** Which field of a route means what: a zero timeout is none, everything else is taken as it is sent. */
  lemma FieldsMean(x: Syntax, ups: map<string, UpstreamGroup>, w: WireRoute)
    requires CompileRoute(x, ups, w).Some?
    ensures var c := CompileRoute(x, ups, w).value;
            && (forall v :: c.timeouts.connect == Some(v) <==> w.timeouts.Some? && w.timeouts.value.0 == v && v > 0)
            && (forall v :: c.timeouts.read == Some(v) <==> w.timeouts.Some? && w.timeouts.value.1 == v && v > 0)
            && (forall v :: c.timeouts.write == Some(v) <==> w.timeouts.Some? && w.timeouts.value.2 == v && v > 0)
            && c.limits.maxBody == w.maxBody && c.limits.bodyTimeout == w.bodyTimeout
            && c.limits.sendTimeout == w.sendTimeout
            && (forall v :: c.tls.trusted == Some(v) <==> w.tls.Some? && w.tls.value.trusted == Some(Some(v)))
            && (forall v :: c.tls.cert == Some(v) <==> w.tls.Some? && w.tls.value.cert == Some(Some(v)))
            && (forall v :: c.tls.key == Some(v) <==> w.tls.Some? && w.tls.value.key == Some(Some(v)))
  {
  }

  lemma CacheFieldsMean(w: WireCache)
    requires CacheOf(Some(w)).Some?
    ensures var c := CacheOf(Some(w)).value.value;
            && c.maxSize == (if w.maxSize == 0 then None else Some(w.maxSize))
            && c.staleIfError == (if w.stale == 0 then None else Some(w.stale))
            && c.minUses == (if w.minUses == 0 then None else Some(w.minUses))
            && c.ttl == Some(if w.ttl == 0 then 60_000 else w.ttl)
            && c.statuses == (if w.statuses == [] then [200, 301, 404] else w.statuses)
  {
  }

  /** What the numbers on the wire stand for. */
  lemma CodesMean(x: Syntax, n: Network)
    requires Faithful(x)
    ensures AccessOf(x, (1, "all")) == Some(AllowAll) && AccessOf(x, (2, "all")) == Some(DenyAll)
    ensures AccessOf(x, (1, x.showNetwork(n))) == Some(Allow(n)) && AccessOf(x, (2, x.showNetwork(n))) == Some(Deny(n))
    ensures ProtocolOf(0) == Some(None) && ProtocolOf(1) == Some(Some(H1)) && ProtocolOf(2) == Some(Some(H2))
    ensures ProtocolOf(3) == Some(Some(H2c)) && KeyModeOf(1) == Some(Uri) && KeyModeOf(2) == Some(UriAndMethod)
    ensures KeyModeOf(3) == Some(NormalizedUri) && PolicyOf(1) == RoundRobin && PolicyOf(2) == Random
    ensures PolicyOf(3) == ConsistentHash && VersionOf(1) == Some(Tls1) && VersionOf(2) == Some(Tls12)
    ensures VersionOf(3) == Some(Tls13) && VerifyOf(1) == VerifyOff && VerifyOf(2) == VerifyOptional
    ensures VerifyOf(3) == VerifyRequired
  {
    assert x.parseNetwork(x.showNetwork(n)) == Some(n) && x.showNetwork(n) != "all";
  }

  // ---- the rest of the message ----

  /** Which field of the options means what; zero is none, and TCP_NODELAY is always on. */
  lemma OptionsMean(x: Syntax, w: WireOptions)
    requires OptionsOf(x, Some(w)).Some?
    ensures var o := OptionsOf(x, Some(w)).value;
            && o.headerTimeout == w.headerTimeout && o.bodyTimeout == w.bodyTimeout && o.sendTimeout == w.sendTimeout
            && o.allowConnect == w.allowConnect && o.h2c == w.h2c && o.tcpNodelay
            && o.keepalive == (if w.keepalive == 0 then None else Some(w.keepalive))
            && o.keepaliveRequests == (if w.keepaliveRequests == 0 then None else Some(w.keepaliveRequests))
            && o.maxBody == (if w.maxBody == 0 then None else Some(w.maxBody))
            && o.cacheMaxSize == (if w.cacheMaxSize == 0 then None else Some(w.cacheMaxSize))
            && (o.realIp.Some? <==> w.realIp.Some?)
  {
  }

  /** And of a listener. */
  lemma ListenerMeans(x: Syntax, l: WireListener)
    requires DefOf(x, l).Some?
    ensures var d := DefOf(x, l).value;
            && Some(d.key.addr) == x.parseIp(l.address) && d.key.port == l.port <= 65535 && d.key.ssl == l.tls
            && d.protocol.http2 == l.http2 && d.protocol.http2Only == l.http2Only
            && (!l.tls ==> d.settings == TlsSettings(None, VerifyOff, None))
  {
  }

  function SpelledServer(s: WireServer): WireServer { if s.weight == 0 then s.(weight := 1) else s }

  function SpelledGroup(g: WireGroup): WireGroup {
    g.(servers := Map(SpelledServer, g.servers), policy := if g.policy == 2 || g.policy == 3 then g.policy else 1)
  }

  function SpelledRealIp(r: Option<WireRealIp>): Option<WireRealIp> {
    match r
    case None => None
    case Some(w) => Some(w.(header := if w.header == "" then "X-Forwarded-For" else w.header,
                         recursive := Some(w.recursive.None? || w.recursive.value)))
  }

  function SpelledOptions(o: Option<WireOptions>): Option<WireOptions> {
    match o
    case None =>
      var http2 := Http2(None, None, None, None);
      Some(WireOptions(0, true, 0, false, false, 0, 0, Some(http2), None, None, None, None))
    case Some(w) => Some(w.(tcpNodelay := true, realIp := SpelledRealIp(w.realIp),
                         http2 := Some(if w.http2.None? then Http2(None, None, None, None) else w.http2.value)))
  }

  function SpelledGeo(g: Option<WireGeo>): Option<WireGeo> {
    if g.Some? && g.value.reload.None? then Some(g.value.(reload := Some(5000))) else g
  }

  function SpelledListener(l: WireListener): WireListener {
    var o := if l.options.None? then WireListenerTls(0, 0, 0, None) else l.options.value;
    l.(options := Some(o.(verify := if o.verify == 2 || o.verify == 3 then o.verify else 1)))
  }

  function SpelledVhost(v: WireVhost): WireVhost { v.(routes := Map(SpelledRoute, v.routes)) }

  function Spelled(w: Wire): Wire {
    w.(http := SpelledOptions(w.http), listeners := Map(SpelledListener, w.listeners),
    vhosts := Map(SpelledVhost, w.vhosts), groups := Map(SpelledGroup, w.groups), geoip := SpelledGeo(w.geoip))
  }

  lemma GroupAlike(x: Syntax, g: WireGroup)
    ensures GroupOf(x, SpelledGroup(g)) == GroupOf(x, g)
  {
    EachAlike(ServerOf, SpelledServer, g.servers);
  }

  lemma {:induction false} GroupsAlike(x: Syntax, ws: seq<WireGroup>)
    ensures GroupsOf(x, Map(SpelledGroup, ws)) == GroupsOf(x, ws)
  {
    if ws != [] {
      GroupsAlike(x, ws[..|ws| - 1]);
      GroupAlike(x, ws[|ws| - 1]);
      assert Map(SpelledGroup, ws)[..|ws| - 1] == Map(SpelledGroup, ws[..|ws| - 1]);
    }
  }

  lemma DefAlike(x: Syntax, l: WireListener)
    ensures DefOf(x, SpelledListener(l)) == DefOf(x, l) && SpelledListener(l).name == l.name
  {
  }

  lemma {:induction false} DefsAlike(x: Syntax, ls: seq<WireListener>)
    ensures DefsOf(x, Map(SpelledListener, ls)) == DefsOf(x, ls)
  {
    if ls != [] {
      DefsAlike(x, ls[..|ls| - 1]);
      DefAlike(x, ls[|ls| - 1]);
      assert Map(SpelledListener, ls)[..|ls| - 1] == Map(SpelledListener, ls[..|ls| - 1]);
    }
  }

  lemma OptionsAlike(x: Syntax, o: Option<WireOptions>)
    ensures OptionsOf(x, SpelledOptions(o)) == OptionsOf(x, o)
  {
  }

  lemma GeoAlike(x: Syntax, g: Option<WireGeo>)
    ensures GeoOf(x, SpelledGeo(g)) == GeoOf(x, g)
  {
  }

  lemma FrameAlike(x: Syntax, w: Wire)
    ensures FrameOf(x, Spelled(w)) == FrameOf(x, w)
  {
    GroupsAlike(x, w.groups);
    DefsAlike(x, w.listeners);
    OptionsAlike(x, w.http);
    GeoAlike(x, w.geoip);
  }

  // ---- blocks whose locations compile alike ----

  function Relocated<L>(s: Server<L>, g: L -> L): Server<L> { s.(locations := Map(g, s.locations)) }

  /** Replacing a location by its image changes neither what it compiles to nor its kind. */
  ghost predicate CompilesAlike<L(!new)>(fe: Frontend<L>, g: L -> L) {
    forall l, ups :: CompileAlike(fe, g, l, ups)
  }

  predicate CompileAlike<L>(fe: Frontend<L>, g: L -> L, l: L, ups: map<string, UpstreamGroup>) {
    fe.compile(g(l), ups) == fe.compile(l, ups) && fe.isHttp(g(l)) == fe.isHttp(l)
  }

  lemma {:induction false} ListAlike<L(!new)>(fe: Frontend<L>, g: L -> L, ls: seq<L>, ups: map<string, UpstreamGroup>,
                                              next: nat)
    requires CompilesAlike(fe, g)
    ensures CompileList(fe, Map(g, ls), ups, next) == CompileList(fe, ls, ups, next)
    decreases |ls|
  {
    if ls != [] {
      assert CompileAlike(fe, g, ls[0], ups);
      assert Map(g, ls)[1..] == Map(g, ls[1..]) && Map(g, ls)[0] == g(ls[0]);
      ListAlike(fe, g, ls[1..], ups, next);
      ListAlike(fe, g, ls[1..], ups, next + 1);
    }
  }

  lemma MixedAlike<L(!new)>(fe: Frontend<L>, g: L -> L, ls: seq<L>)
    requires CompilesAlike(fe, g)
    ensures Mixed(fe, Map(g, ls)) <==> Mixed(fe, ls)
  {
    var none: map<string, UpstreamGroup> := map[];
    forall i | 0 <= i < |ls| ensures fe.isHttp(Map(g, ls)[i]) == fe.isHttp(ls[i]) {
      assert CompileAlike(fe, g, ls[i], none);
    }
    if Mixed(fe, ls) {
      var i, j :| 0 <= i < |ls| && 0 <= j < |ls| && fe.isHttp(ls[i]) && !fe.isHttp(ls[j]);
      assert fe.isHttp(Map(g, ls)[i]) && !fe.isHttp(Map(g, ls)[j]);
    }
  }

  lemma {:induction false} ScpAlike<L>(r: Router, s: Server<L>, g: L -> L, routes: Routes)
    ensures ScpError(r, Relocated(s, g), routes) == ScpError(r, s, routes)
    decreases |routes|
  {
    if routes != [] { ScpAlike(r, s, g, routes[1..]); }
  }

  lemma RoutesAlike<L(!new)>(fe: Frontend<L>, g: L -> L, r: Router, next: nat, s: Server<L>)
    requires CompilesAlike(fe, g)
    ensures ServerRoutes(fe, r, next, Relocated(s, g)) == ServerRoutes(fe, r, next, s)
  {
    ListAlike(fe, g, s.locations, r.upstreams, next);
    MixedAlike(fe, g, s.locations);
    if CompileLocations(fe, s.locations, r.upstreams, next).Ok? {
      ScpAlike(r, s, g, CompileLocations(fe, s.locations, r.upstreams, next).value);
    }
  }

  lemma {:induction false} ListensAlike<L>(r: Router, s: Server<L>, g: L -> L, routes: Routes, listens: seq<Listen>)
    ensures AddListens(r, Relocated(s, g), routes, listens) == AddListens(r, s, routes, listens)
    decreases |listens|
  {
    if listens != [] {
      assert AddListen(r, Relocated(s, g), routes, listens[0]) == AddListen(r, s, routes, listens[0]);
      if AddListen(r, s, routes, listens[0]).Ok? {
        ListensAlike(AddListen(r, s, routes, listens[0]).value, s, g, routes, listens[1..]);
      }
    }
  }

  lemma ServerAlike<L(!new)>(fe: Frontend<L>, g: L -> L, b: Build, s: Server<L>)
    requires CompilesAlike(fe, g)
    ensures AddServer(fe, b, Relocated(s, g)) == AddServer(fe, b, s)
  {
    RoutesAlike(fe, g, b.router, b.next, s);
    if ServerRoutes(fe, b.router, b.next, s).Ok? {
      ListensAlike(b.router, s, g, ServerRoutes(fe, b.router, b.next, s).value, s.listens);
    }
  }

  function AllRelocated<L>(servers: seq<Server<L>>, g: L -> L): seq<Server<L>> {
    seq(|servers|, i requires 0 <= i < |servers| => Relocated(servers[i], g))
  }

  lemma {:induction false} ServersAlike<L(!new)>(fe: Frontend<L>, g: L -> L, b: Build, servers: seq<Server<L>>)
    requires CompilesAlike(fe, g)
    ensures AddServers(fe, b, AllRelocated(servers, g)) == AddServers(fe, b, servers)
  {
    if servers != [] {
      var front, s := servers[..|servers| - 1], servers[|servers| - 1];
      assert AllRelocated(servers, g)[..|servers| - 1] == AllRelocated(front, g);
      ServersAlike(fe, g, b, front);
      if AddServers(fe, b, front).Ok? {
        ServerAlike(fe, g, AddServers(fe, b, front).value, s);
      }
    }
  }

  lemma RoutesCompileAlike(x: Syntax)
    ensures CompilesAlike(WireFrontend(x), SpelledRoute)
  {
    forall w: WireRoute, ups: map<string, UpstreamGroup>
      ensures CompileAlike(WireFrontend(x), SpelledRoute, w, ups)
    {
      RouteDefaults(x, ups, w);
    }
  }

  lemma BlockAlike(defs: map<string, Def>, v: WireVhost)
    ensures VhostServer(defs, SpelledVhost(v))
         == if VhostServer(defs, v).None? then None else Some(Relocated(VhostServer(defs, v).value, SpelledRoute))
  {
  }

  lemma {:induction false} BlocksAlike(defs: map<string, Def>, vs: seq<WireVhost>)
    ensures Each(Vhosts(defs), Map(SpelledVhost, vs))
         == if Each(Vhosts(defs), vs).None? then None
            else Some(AllRelocated(Each(Vhosts(defs), vs).value, SpelledRoute))
  {
    if vs == [] {
      assert AllRelocated<WireRoute>([], SpelledRoute) == [];
    } else {
      var front, v := vs[..|vs| - 1], vs[|vs| - 1];
      BlocksAlike(defs, front);
      assert Map(SpelledVhost, vs)[..|vs| - 1] == Map(SpelledVhost, front);
      BlockAlike(defs, v);
      if Each(Vhosts(defs), vs).Some? {
        var before, s := Each(Vhosts(defs), front).value, VhostServer(defs, v).value;
        assert AllRelocated(before + [s], SpelledRoute)
            == AllRelocated(before, SpelledRoute) + [Relocated(s, SpelledRoute)];
      }
    }
  }

  lemma TimeoutAlike(s: Server<WireRoute>, o: HttpOptions)
    ensures BodyTimeoutOk(Relocated(s, SpelledRoute), o) == BodyTimeoutOk(s, o)
  {
    var t := Relocated(s, SpelledRoute);
    assert forall i :: 0 <= i < |s.locations| ==> t.locations[i].bodyTimeout == s.locations[i].bodyTimeout;
    if BodyTimeoutOk(t, o) {
      forall i | 0 <= i < |s.locations| && Positive(s.locations[i].bodyTimeout)
        ensures Positive(t.locations[i].bodyTimeout)
      {
      }
    }
  }

  lemma TimeoutsAlike(servers: seq<Server<WireRoute>>, o: HttpOptions)
    ensures (exists i :: 0 <= i < |servers| && !BodyTimeoutOk(servers[i], o))
       <==> var t := AllRelocated(servers, SpelledRoute); exists i :: 0 <= i < |t| && !BodyTimeoutOk(t[i], o)
  {
    var t := AllRelocated(servers, SpelledRoute);
    forall i | 0 <= i < |servers| ensures BodyTimeoutOk(t[i], o) == BodyTimeoutOk(servers[i], o) {
      TimeoutAlike(servers[i], o);
    }
    if i :| 0 <= i < |servers| && !BodyTimeoutOk(servers[i], o) { assert !BodyTimeoutOk(t[i], o); }
  }

  /**
    * A snapshot and the same with every default written out (verification, caching, root path, weights, codes,
    * round robin, forwarding header, recursion, reload period, client verification off) are the same router,
    * or both refused.
    */
  lemma SnapshotDefaults(x: Syntax, w: Wire)
    ensures Accept(x, Spelled(w)) == Accept(x, w)
  {
    FrameAlike(x, w);
    if FrameOf(x, w).Some? {
      var f := FrameOf(x, w).value;
      BlocksAlike(f.defs, w.vhosts);
      if Servers(x, w).Some? {
        var servers := Servers(x, w).value;
        RoutesCompileAlike(x);
        ServersAlike(WireFrontend(x), SpelledRoute, f.build, servers);
        if AddServers(WireFrontend(x), f.build, servers).Ok? {
          TimeoutsAlike(servers, AddServers(WireFrontend(x), f.build, servers).value.router.options);
        }
      }
    }
  }
}

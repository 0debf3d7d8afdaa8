/** Whole snapshots over the wire: what is accepted, and what an accepted snapshot guarantees. */
module WireSnapshot {
  import opened Common
  import opened Config
  import opened WireRoute
  import opened WireParts
  import opened RouterBuild
  import opened RouterFacts
  import ClientIp
  import Control

  // ---- the message ----

  datatype WireBinding = WireBinding(cert: Unset<PemSource>, key: Unset<PemSource>)

  datatype WireVhost = WireVhost(listener: string, names: seq<string>, default: bool, tls: Option<WireBinding>,
                                 routes: seq<WireRoute>)

  datatype Wire = Wire(http: Option<WireOptions>, listeners: seq<WireListener>, vhosts: seq<WireVhost>,
                       groups: seq<WireGroup>,
                       letsEncrypt: Option<WireLe>, profiles: seq<ScpProfile>, geoip: Option<WireGeo>)

  // ---- accepting a snapshot ----

  function BindingOf(b: WireBinding): Option<TlsIdentity> {
    if b.cert.Some? && b.cert.value.Some? && b.key.Some? && b.key.value.Some?
    then Some(TlsIdentity(b.cert.value.value, b.key.value.value)) else None
  }

  function WireBindingOf(i: TlsIdentity): WireBinding { WireBinding(Some(Some(i.cert)), Some(Some(i.key))) }

  function VhostServer(defs: map<string, Def>, v: WireVhost): Option<Server<WireRoute>> {
    if v.listener !in defs then None
    else
      var def := defs[v.listener];
      if def.key.ssl != v.tls.Some? || (v.tls.Some? && BindingOf(v.tls.value).None?) then None
      else Some(Server(v.names, v.routes, [Listen(def.key, v.default, def.protocol)],
                       if v.tls.Some? then Some(Custom(BindingOf(v.tls.value).value)) else None, def.settings))
  }

  function Vhosts(defs: map<string, Def>): WireVhost -> Option<Server<WireRoute>> { v => VhostServer(defs, v) }

  function CompileWire(x: Syntax): (WireRoute, map<string, UpstreamGroup>) -> Result<Option<Content>, string> {
    (w, ups) => match CompileRoute(x, ups, w) case None => Err("") case Some(c) => Ok(Some(c))
  }

  function IsHttp(): WireRoute -> bool { (w: WireRoute) => w.rule.Some? && w.rule.value.WireHttp? }

  function WireFrontend(x: Syntax): Frontend<WireRoute> { Frontend(CompileWire(x), IsHttp()) }

  function ProfilesOf(x: Syntax, l: seq<ScpProfile>, ups: map<string, UpstreamGroup>): Option<map<string, ScpProfile>> {
    if l == [] then Some(map[])
    else
      var p := l[|l| - 1];
      match ProfilesOf(x, l[..|l| - 1], ups)
      case None => None
      case Some(m) => if !x.profile(p, ups) || p.name in m then None else Some(m[p.name := p])
  }

  predicate Positive(n: Option<u64>) { n.Some? && n.value > 0 }

  predicate AcceptsHttp2(l: Listen, h2c: bool) { if l.key.ssl then l.protocol.http2 || l.protocol.http2Only else h2c }

  /** A body timeout cannot be enforced where HTTP/2 is accepted. */
  predicate BodyTimeoutOk(s: Server<WireRoute>, o: HttpOptions) {
    (exists i :: 0 <= i < |s.listens| && AcceptsHttp2(s.listens[i], o.h2c)) ==>
      !Positive(o.bodyTimeout) && forall i :: 0 <= i < |s.locations| ==> !Positive(s.locations[i].bodyTimeout)
  }

  function Start(ups: map<string, UpstreamGroup>, profiles: map<string, ScpProfile>, o: HttpOptions,
                 le: Option<LetsEncrypt>, geo: Option<GeoIp>): Build {
    Build(Router(map[], map[], map[], ups, profiles, o, le, geo), 1)
  }

  /** What the message says apart from the virtual hosts. */
  datatype Frame = Frame(build: Build, defs: map<string, Def>)

  function FrameOf(x: Syntax, w: Wire): Option<Frame> {
    var ups, o, geo, defs := GroupsOf(x, w.groups), OptionsOf(x, w.http), GeoOf(x, w.geoip), DefsOf(x, w.listeners);
    if ups.None? || o.None? || geo.None? || defs.None? then None
    else
      match ProfilesOf(x, w.profiles, ups.value)
      case None => None
      case Some(profiles) => Some(Frame(Start(ups.value, profiles, o.value, LeOf(w.letsEncrypt), geo.value),
                                        defs.value))
  }

  predicate HeaderTimeoutOk(o: HttpOptions) { !(o.h2c && Positive(o.headerTimeout)) }

  function Servers(x: Syntax, w: Wire): Option<seq<Server<WireRoute>>> {
    match FrameOf(x, w) case None => None case Some(f) => Each(Vhosts(f.defs), w.vhosts)
  }

  function Accept(x: Syntax, w: Wire): Option<Router> {
    var f, servers := FrameOf(x, w), Servers(x, w);
    if f.None? || servers.None? then None
    else
      match AddServers(WireFrontend(x), f.value.build, servers.value)
      case Err(_) => None
      case Ok(b) =>
        if (exists i :: 0 <= i < |servers.value| && !BodyTimeoutOk(servers.value[i], b.router.options))
           || !HeaderTimeoutOk(b.router.options) then None
        else Some(b.router)
  }

  // ---- host names survive ----

  lemma {:induction false} TrimDotsStops(s: string)
    ensures TrimDots(s) <= s && (TrimDots(s) != [] ==> TrimDots(s)[|TrimDots(s)| - 1] != '.')
  {
    if s != [] && s[|s| - 1] == '.' { TrimDotsStops(s[..|s| - 1]); }
  }

  lemma {:induction false} TrimDotsAfter(a: string, s: string)
    requires TrimDots(s) != []
    ensures TrimDots(a + s) == a + TrimDots(s)
  {
    if s[|s| - 1] == '.' {
      assert (a + s)[..|a + s| - 1] == a + s[..|s| - 1];
      TrimDotsAfter(a, s[..|s| - 1]);
    }
  }

  lemma NormalizeTwice(s: string)
    ensures Normalize(Normalize(s)) == Normalize(s)
  {
    TrimDotsStops(s);
    var t := TrimDots(s);
    assert Lower(t) != [] ==> Lower(t)[|t| - 1] == LowerChar(t[|t| - 1]);
    assert Lower(Lower(t)) == Lower(t);
  }

  lemma LowerHostname(s: string)
    requires ValidHostname(s)
    ensures ValidHostname(Lower(s))
  {
    var t := Lower(s);
    assert forall i :: 0 <= i < |s| ==> t[i] == LowerChar(s[i]);
    forall i | 0 <= i <= |t| - 64 ensures DotWithin(t, i) {
      assert DotWithin(s, i);
      var j :| i <= j < i + 64 && j < |s| && s[j] == '.';
      assert t[j] == '.';
    }
  }

  lemma LoweredSuffix(suffix: string)
    requires ValidHostname(TrimDots(suffix))
    ensures Normalize("*." + suffix) == "*." + Lower(TrimDots(suffix))
    ensures ValidHostname(Lower(TrimDots(suffix))) && TrimDots(Lower(TrimDots(suffix))) == Lower(TrimDots(suffix))
  {
    var t := TrimDots(suffix);
    TrimDotsAfter("*.", suffix);
    TrimDotsStops(suffix);
    LowerHostname(t);
    assert Lower("*." + t) == "*." + Lower(t);
    assert Lower(t)[|t| - 1] == LowerChar(t[|t| - 1]);
  }

  lemma StarSurvives(name: string)
    requires '*' in Normalize(name)
    ensures '*' in name
  {
    TrimDotsStops(name);
    var t := TrimDots(name);
    var i :| 0 <= i < |t| && Lower(t)[i] == '*';
    assert t[i] == '*' && name[i] == t[i];
  }

  /** A name that passed the checks passes them again in its normal form. */
  lemma NormalNameOk(name: string)
    requires NameOk(name)
    ensures NameOk(Normalize(name))
  {
    if '*' in Normalize(name) {
      StarSurvives(name);
      var suffix := name[2..];
      assert name == "*." + suffix;
      LoweredSuffix(suffix);
      var t := Lower(TrimDots(suffix));
      assert ("*." + t)[2..] == t && ("*." + t)[..2] == "*.";
    }
  }

  lemma {:induction false} NamesPass(names: seq<string>)
    requires forall i :: 0 <= i < |names| ==> NameOk(names[i])
    ensures NameError(names).None?
    decreases |names|
  {
    if names != [] { NamesPass(names[1..]); }
  }

  lemma {:induction false} NamesPassed(names: seq<string>, i: nat)
    requires NameError(names).None? && i < |names|
    ensures NameOk(names[i])
    decreases i
  {
    if i > 0 { NamesPassed(names[1..], i - 1); }
  }

  // ---- what an accepted block guarantees ----

  /** From the wire every location compiles to something or the snapshot is refused. */
  lemma {:induction false} WireCompiledAt(x: Syntax, ls: seq<WireRoute>, ups: map<string, UpstreamGroup>, i: nat)
    requires Compiled(WireFrontend(x), ls, ups).Some?
    ensures |Compiled(WireFrontend(x), ls, ups).value| == |ls|
    ensures i < |ls| ==> CompileRoute(x, ups, ls[i]) == Some(Compiled(WireFrontend(x), ls, ups).value[i])
    decreases |ls|
  {
    if ls != [] {
      WireCompiledAt(x, ls[1..], ups, if i > 0 then i - 1 else 0);
      assert Compiled(WireFrontend(x), ls, ups).value
          == [CompileRoute(x, ups, ls[0]).value] + Compiled(WireFrontend(x), ls[1..], ups).value;
    }
  }

  lemma WireCompiles(x: Syntax, ls: seq<WireRoute>, ups: map<string, UpstreamGroup>, cs: seq<Content>)
    requires |cs| == |ls| && forall i :: 0 <= i < |ls| ==> CompileRoute(x, ups, ls[i]) == Some(cs[i])
    ensures Compiled(WireFrontend(x), ls, ups) == Some(cs)
  {
    forall i | 0 <= i < |ls| ensures WireFrontend(x).compile(ls[i], ups) == Ok(Some(cs[i])) {
      assert CompileRoute(x, ups, ls[i]) == Some(cs[i]);
    }
    CompiledIs(WireFrontend(x), ls, ups, cs);
  }

  lemma {:induction false} ScpPassed<L>(r: Router, s: Server<L>, routes: Routes, i: nat)
    requires ScpError(r, s, routes).None? && i < |routes| && routes[i].content.target.Scp?
    ensures routes[i].content.target.profile in r.profiles
    ensures forall j :: 0 <= j < |s.listens| ==> SpeaksHttp2(s.listens[j], r.options.h2c)
    decreases i
  {
    if i > 0 { ScpPassed(r, s, routes[1..], i - 1); }
  }

  lemma {:induction false} ScpPasses<L>(r: Router, s: Server<L>, routes: Routes)
    requires forall i :: 0 <= i < |routes| && routes[i].content.target.Scp? ==>
                           routes[i].content.target.profile in r.profiles
    requires forall i, j :: 0 <= i < |routes| && routes[i].content.target.Scp? && 0 <= j < |s.listens| ==>
                              SpeaksHttp2(s.listens[j], r.options.h2c)
    ensures ScpError(r, s, routes).None?
    decreases |routes|
  {
    if routes != [] {
      assert forall i :: 0 <= i < |routes[1..]| ==> routes[1..][i] == routes[i + 1];
      ScpPasses(r, s, routes[1..]);
    }
  }

  predicate Uniform(cs: seq<Content>) {
    (forall i :: 0 <= i < |cs| ==> cs[i].matcher.Http?) || (forall i :: 0 <= i < |cs| ==> !cs[i].matcher.Http?)
  }

  predicate Reexports(x: Syntax, ups: map<string, UpstreamGroup>, c: Content) {
    CompileRoute(x, ups, WireRouteOf(x, c)) == Some(c)
  }

  /** A location is read back as it was exactly when its direct upstreams are stable. */
  predicate ReexportsIfStable(x: Syntax, ups: map<string, UpstreamGroup>, c: Content) {
    Reexports(x, ups, c) <==> StableTarget(c.target, ups)
  }

  predicate ScpFits(c: Content, r: Router, l: Listen) {
    c.target.Scp? ==> c.target.profile in r.profiles && SpeaksHttp2(l, r.options.h2c)
  }

  predicate BodyFits(c: Content, r: Router, l: Listen) {
    AcceptsHttp2(l, r.options.h2c) ==> !Positive(c.limits.bodyTimeout)
  }

  function ListenAt(r: Router, key: ListenKey): Listen { Listen(key, false, Control.ProtocolAt(r, key)) }

  predicate GoodContent(x: Syntax, r: Router, l: Listen, c: Content) {
    ReexportsIfStable(x, r.upstreams, c) && ScpFits(c, r, l) && BodyFits(c, r, l)
  }

  /** All that the checks of a block ask of its routes on a listener. */
  predicate GoodRoutes(x: Syntax, r: Router, key: ListenKey, routes: Routes) {
    && Uniform(Contents(routes)) && (AcceptsHttp2(ListenAt(r, key), r.options.h2c) ==> !Positive(r.options.bodyTimeout))
    && forall i :: 0 <= i < |routes| ==> GoodContent(x, r, ListenAt(r, key), routes[i].content)
  }

  lemma KindKept(x: Syntax, ups: map<string, UpstreamGroup>, w: WireRoute)
    requires CompileRoute(x, ups, w).Some?
    ensures CompileRoute(x, ups, w).value.matcher.Http? <==> IsHttp()(w)
    ensures CompileRoute(x, ups, w).value.limits.bodyTimeout == w.bodyTimeout
  {
  }

  /** The routes of a block correspond to its locations one by one. */
  lemma BlockContents(x: Syntax, r: Router, next: nat, s: Server<WireRoute>, routes: Routes, i: nat)
    requires ServerRoutes(WireFrontend(x), r, next, s) == Ok(routes)
    ensures |routes| == |s.locations|
    ensures (i < |routes| ==> CompileRoute(x, r.upstreams, s.locations[i]) == Some(routes[i].content))
    ensures !Mixed(WireFrontend(x), s.locations) && ScpError(r, s, routes).None? && NameError(s.names).None?
  {
    CompileListContents(WireFrontend(x), s.locations, r.upstreams, next);
    WireCompiledAt(x, s.locations, r.upstreams, i);
  }

  lemma BlockUniform(x: Syntax, r: Router, next: nat, s: Server<WireRoute>, routes: Routes)
    requires ServerRoutes(WireFrontend(x), r, next, s) == Ok(routes)
    ensures Uniform(Contents(routes))
  {
    forall i | 0 <= i < |routes|
      ensures i < |s.locations| && (routes[i].content.matcher.Http? <==> IsHttp()(s.locations[i]))
    {
      BlockContents(x, r, next, s, routes, i);
      KindKept(x, r.upstreams, s.locations[i]);
    }
    BlockContents(x, r, next, s, routes, 0);
  }

  /** An accepted block is good on its listener. */
  lemma BlockGood(x: Syntax, r0: Router, r: Router, next: nat, s: Server<WireRoute>, routes: Routes)
    requires Faithful(x) && Keyed(r.upstreams) && SameSettings(r0, r) && Single(s) && Agrees(r, s)
    requires ServerRoutes(WireFrontend(x), r0, next, s) == Ok(routes) && BodyTimeoutOk(s, r.options)
    ensures GoodRoutes(x, r, KeyOf(s), routes)
  {
    assert ListenAgrees(r, s.listens[0], s.settings);
    BlockUniform(x, r0, next, s, routes);
    var l := ListenAt(r, KeyOf(s));
    assert s.listens[0].protocol == l.protocol && s.listens[0].key == l.key;
    forall i | 0 <= i < |routes| ensures GoodContent(x, r, l, routes[i].content) {
      BlockContents(x, r0, next, s, routes, i);
      RouteRoundTrip(x, r.upstreams, s.locations[i]);
      KindKept(x, r.upstreams, s.locations[i]);
      if routes[i].content.target.Scp? { ScpPassed(r0, s, routes, i); }
    }
  }

  // ---- what an accepted snapshot guarantees ----

  predicate NormalName(n: string) { NameOk(n) && Normalize(n) == n }

  predicate HasHosts(hosts: VirtualHosts) { hosts.named != map[] || hosts.default.Some? }

  predicate DefOk(d: Def) { d.key.port <= 65535 && SettingsOf(Some(WireSettingsOf(d.settings))) == Some(d.settings) }

  lemma {:induction false} DefsAreOk(x: Syntax, ls: seq<WireListener>, name: string)
    requires DefsOf(x, ls).Some? && name in DefsOf(x, ls).value
    ensures DefOk(DefsOf(x, ls).value[name])
  {
    var front, l := ls[..|ls| - 1], ls[|ls| - 1];
    if name == ClientIp.Trim(l.name) {
      SettingsRoundTrip(l.options);
    } else {
      DefsAreOk(x, front, name);
    }
  }

  /** A block that came over the wire: one listen, a certificate exactly on a TLS listener. */
  predicate FromWire(s: Server<WireRoute>) {
    && Single(s) && KeyOf(s).port <= 65535 && SettingsOf(Some(WireSettingsOf(s.settings))) == Some(s.settings)
    && (s.provider.Some? <==> KeyOf(s).ssl) && (s.provider.Some? ==> s.provider.value.Custom?)
  }

  lemma ServersFromWire(x: Syntax, w: Wire, i: nat)
    requires Servers(x, w).Some? && i < |Servers(x, w).value|
    ensures |w.vhosts| == |Servers(x, w).value| && FromWire(Servers(x, w).value[i])
  {
    var defs := FrameOf(x, w).value.defs;
    EachElement(Vhosts(defs), w.vhosts);
    var v := w.vhosts[i];
    assert Vhosts(defs)(v) == Some(Servers(x, w).value[i]);
    DefsAreOk(x, w.listeners, v.listener);
  }

  lemma {:induction false} ProfilesAreOk(x: Syntax, l: seq<ScpProfile>, ups: map<string, UpstreamGroup>, k: string)
    requires ProfilesOf(x, l, ups).Some? && k in ProfilesOf(x, l, ups).value
    ensures var p := ProfilesOf(x, l, ups).value[k]; p.name == k && x.profile(p, ups)
  {
    if k != l[|l| - 1].name { ProfilesAreOk(x, l[..|l| - 1], ups, k); }
  }

  /** Settings that are read back as they were. */
  ghost predicate SettingsExportable(x: Syntax, r: Router) {
    && Exportable(x, r.upstreams) && OptionsOf(x, Some(WireOptionsOf(x, r.options))) == Some(r.options)
    && HeaderTimeoutOk(r.options)
    && GeoOf(x, WireGeoOf(x, r.geoip)) == Some(r.geoip) && LeOf(WireLeOf(r.letsEncrypt)) == r.letsEncrypt
    && forall k :: k in r.profiles ==> r.profiles[k].name == k && x.profile(r.profiles[k], r.upstreams)
  }

  lemma FrameExportable(x: Syntax, w: Wire)
    requires Faithful(x) && FrameOf(x, w).Some? && HeaderTimeoutOk(FrameOf(x, w).value.build.router.options)
    ensures SettingsExportable(x, FrameOf(x, w).value.build.router)
  {
    GroupsExportable(x, w.groups);
    OptionsRoundTrip(x, w.http);
    GeoRoundTrip(x, w.geoip);
    LeRoundTrip(w.letsEncrypt);
    var ups := GroupsOf(x, w.groups).value;
    forall k | k in ProfilesOf(x, w.profiles, ups).value
      ensures var p := ProfilesOf(x, w.profiles, ups).value[k]; p.name == k && x.profile(p, ups) {
      ProfilesAreOk(x, w.profiles, ups, k);
    }
  }

  /** The routes an accepted router may hold. */
  function Good(x: Syntax, r: Router): RouteProperty { (k, routes) => GoodRoutes(x, r, k, routes) }

  /** One listener of an accepted router. */
  ghost predicate ListenerOk(r: Router, key: ListenKey, good: RouteProperty)
    requires key in r.listeners
  {
    var hosts := r.listeners[key];
    && key.port <= 65535 && HasHosts(hosts)
    && (forall n :: n in hosts.named ==> NormalName(n) && good(key, hosts.named[n]))
    && (hosts.default.Some? ==> good(key, hosts.default.value))
    && (key.ssl <==> key in r.tls)
    && (key in r.tls ==>
          && SettingsOf(Some(WireSettingsOf(r.tls[key].settings))) == Some(r.tls[key].settings)
          && r.tls[key].named.Keys == hosts.named.Keys && r.tls[key].default.Some?)
  }

  ghost predicate RouterOk(x: Syntax, r: Router) {
    SettingsExportable(x, r) && WellKeyed(r) && forall k :: k in r.listeners ==> ListenerOk(r, k, Good(x, r))
  }

  lemma {:induction false} CertSome(servers: seq<Server<WireRoute>>, le: Option<LetsEncrypt>, key: ListenKey, i: nat)
    requires i < |servers| && ListedOn(servers[i].listens, key) && servers[i].provider.Some?
    ensures DefaultCert(servers, le, key).Some?
    decreases |servers|
  {
    if i < |servers| - 1 { CertSome(servers[..|servers| - 1], le, key, i); }
  }

  lemma {:induction false} OwnersHave<L>(servers: seq<Server<L>>, key: ListenKey, i: nat, n: string)
    requires i < |servers| && ListedOn(servers[i].listens, key) && n in NameSet(servers[i].names)
    ensures n in Owners(servers, key)
    decreases |servers|
  {
    if i < |servers| - 1 { OwnersHave(servers[..|servers| - 1], key, i, n); }
  }

  /** A listener a block is for has hosts. */
  lemma BlockHasHosts(x: Syntax, b: Build, servers: seq<Server<WireRoute>>, i: nat)
    requires b.router.listeners == map[] && AllSingle(servers) && AddServers(WireFrontend(x), b, servers).Ok?
    requires i < |servers|
    ensures HasHosts(HostsAt(AddServers(WireFrontend(x), b, servers).value.router, KeyOf(servers[i])))
  {
    var fe, key, s := WireFrontend(x), KeyOf(servers[i]), servers[i];
    SingleListed(s, key);
    if s.names != [] {
      assert Normalize(s.names[0]) in NameSet(s.names);
      OwnersHave(servers, key, i, Normalize(s.names[0]));
      RoutesFollowOwners(fe, b, servers, key);
    } else {
      DefaultIs(fe, b, servers, key);
      DefaultSome(servers, Blocks(fe, b, servers), key, i);
    }
  }

  lemma {:induction false} DefaultSome<L>(servers: seq<Server<L>>, blocks: seq<Routes>, key: ListenKey, i: nat)
    requires |blocks| == |servers| && i < |servers| && ListedOn(servers[i].listens, key) && servers[i].names == []
    ensures DefaultRoutes(servers, blocks, key).Some?
    decreases |servers|
  {
    var n := |servers| - 1;
    if i < n { DefaultSome(servers[..n], blocks[..n], key, i); }
  }

  lemma GoodIsSatisfied(s: Server<WireRoute>, block: Routes, p: RouteProperty)
    requires Single(s) && p(KeyOf(s), block)
    ensures Satisfies(s, block, p)
  {
  }

  lemma BlockSatisfies(x: Syntax, b: Build, servers: seq<Server<WireRoute>>, r: Router, i: nat)
    requires Faithful(x) && AddServers(WireFrontend(x), b, servers).Ok?
    requires r == AddServers(WireFrontend(x), b, servers).value.router
    requires Keyed(r.upstreams) && SameSettings(b.router, r) && i < |servers| && Single(servers[i])
    requires BodyTimeoutOk(servers[i], r.options)
    ensures Satisfies(servers[i], Blocks(WireFrontend(x), b, servers)[i], Good(x, r))
  {
    var fe := WireFrontend(x);
    var next := BlockCompiled(fe, b, servers, i);
    BlockAgrees(fe, b, servers, r, i);
    BlockGood(x, b.router, r, next, servers[i], Blocks(fe, b, servers)[i]);
    GoodIsSatisfied(servers[i], Blocks(fe, b, servers)[i], Good(x, r));
  }

  /** A name of an accepted router is in normal form. */
  lemma OwnedNameNormal(x: Syntax, b: Build, servers: seq<Server<WireRoute>>, key: ListenKey, n: string)
    requires AddServers(WireFrontend(x), b, servers).Ok? && n in Owners(servers, key)
    ensures NormalName(n)
  {
    OwnerLists(servers, key, n);
    var i := Owners(servers, key)[n];
    var next := BlockCompiled(WireFrontend(x), b, servers, i);
    BlockContents(x, b.router, next, servers[i], Blocks(WireFrontend(x), b, servers)[i], 0);
    var j :| 0 <= j < |servers[i].names| && n == Normalize(servers[i].names[j]);
    NamesPassed(servers[i].names, j);
    NormalNameOk(servers[i].names[j]);
    NormalizeTwice(servers[i].names[j]);
  }

  /** The routes of an accepted router. */
  lemma RoutesGood(x: Syntax, b: Build, servers: seq<Server<WireRoute>>, r: Router)
    requires Faithful(x) && b.router.listeners == map[]
    requires AllSingle(servers) && AddServers(WireFrontend(x), b, servers).Ok?
    requires r == AddServers(WireFrontend(x), b, servers).value.router
    requires Keyed(r.upstreams) && forall i :: 0 <= i < |servers| ==> BodyTimeoutOk(servers[i], r.options)
    ensures RouterSatisfies(r, Good(x, r))
  {
    BuildKeepsSettings(WireFrontend(x), b, servers);
    forall i | 0 <= i < |servers| ensures Satisfies(servers[i], Blocks(WireFrontend(x), b, servers)[i], Good(x, r)) {
      BlockSatisfies(x, b, servers, r, i);
    }
    HeldSatisfy(WireFrontend(x), b, servers, Good(x, r));
  }

  /** The names of a listener of an accepted router. */
  lemma NamesGood(x: Syntax, b: Build, servers: seq<Server<WireRoute>>, r: Router, key: ListenKey)
    requires b.router.listeners == map[]
    requires AddServers(WireFrontend(x), b, servers).Ok? && r == AddServers(WireFrontend(x), b, servers).value.router
    ensures forall n :: n in HostsAt(r, key).named ==> NormalName(n)
  {
    RoutesFollowOwners(WireFrontend(x), b, servers, key);
    forall n | n in HostsAt(r, key).named ensures NormalName(n) {
      OwnedNameNormal(x, b, servers, key, n);
    }
  }

  /** The certificates of a listener of an accepted router. */
  lemma CertsGood(x: Syntax, b: Build, servers: seq<Server<WireRoute>>, r: Router, key: ListenKey, i: nat)
    requires b.router.listeners == map[] && b.router.protocols == map[] && b.router.tls == map[]
    requires AllSingle(servers) && AddServers(WireFrontend(x), b, servers).Ok?
    requires r == AddServers(WireFrontend(x), b, servers).value.router
    requires (forall i :: 0 <= i < |servers| ==> FromWire(servers[i])) && i < |servers| && KeyOf(servers[i]) == key
    requires key.ssl && key in r.tls
    ensures TlsNames(r, key).Keys == HostsAt(r, key).named.Keys && TlsDefault(r, key).Some?
  {
    var fe := WireFrontend(x);
    RoutesFollowOwners(fe, b, servers, key);
    assert Certified(servers, key) by {
      forall j | 0 <= j < |servers| && ListedOn(servers[j].listens, key) ensures servers[j].provider.Some? {
        SingleListed(servers[j], key);
      }
    }
    SingleListed(servers[i], key);
    CertsFollowOwners(fe, b, servers, key);
    DefaultCertIs(fe, b, servers, key);
    CertSome(servers, b.router.letsEncrypt, key, i);
  }

  lemma ListenerOkFrom(r: Router, key: ListenKey, l: Listen, own: TlsSettings, good: RouteProperty)
    requires key in r.listeners && WellKeyed(r) && l.key == key && key.port <= 65535 && ListenAgrees(r, l, own)
    requires SettingsOf(Some(WireSettingsOf(own))) == Some(own) && HasHosts(r.listeners[key])
    requires (forall n :: n in r.listeners[key].named ==> NormalName(n)) && HostsSatisfy(key, r.listeners[key], good)
    requires key.ssl ==> TlsNames(r, key).Keys == HostsAt(r, key).named.Keys && TlsDefault(r, key).Some?
    ensures ListenerOk(r, key, good)
  {
  }

  lemma ListenerGood(x: Syntax, b: Build, servers: seq<Server<WireRoute>>, r: Router, i: nat, good: RouteProperty)
    requires b.router.listeners == map[] && b.router.protocols == map[] && b.router.tls == map[]
    requires AllSingle(servers) && AddServers(WireFrontend(x), b, servers).Ok?
    requires r == AddServers(WireFrontend(x), b, servers).value.router
    requires WellKeyed(r) && RouterSatisfies(r, good) && i < |servers|
    requires forall j :: 0 <= j < |servers| ==> FromWire(servers[j])
    ensures KeyOf(servers[i]) in r.listeners && ListenerOk(r, KeyOf(servers[i]), good)
  {
    var key := KeyOf(servers[i]);
    ListenEndsAgreed(WireFrontend(x), b, servers, r, i, 0);
    BlockHasHosts(x, b, servers, i);
    NamesGood(x, b, servers, r, key);
    if key.ssl { CertsGood(x, b, servers, r, key, i); }
    ListenerOkFrom(r, key, servers[i].listens[0], servers[i].settings, good);
  }

  lemma ListenersGood(x: Syntax, b: Build, servers: seq<Server<WireRoute>>, r: Router, good: RouteProperty,
                      key: ListenKey)
    requires b.router.listeners == map[] && b.router.protocols == map[] && b.router.tls == map[]
    requires AllSingle(servers) && AddServers(WireFrontend(x), b, servers).Ok?
    requires r == AddServers(WireFrontend(x), b, servers).value.router
    requires WellKeyed(r) && RouterSatisfies(r, good) && key in Keys(servers)
    requires forall j :: 0 <= j < |servers| ==> FromWire(servers[j])
    ensures key in r.listeners && ListenerOk(r, key, good)
  {
    var i, j := KeyFrom(servers, key);
    assert j == 0 && key == KeyOf(servers[i]);
    ListenerGood(x, b, servers, r, i, good);
  }

  lemma AllFromWire(x: Syntax, w: Wire)
    requires Servers(x, w).Some?
    ensures forall i :: 0 <= i < |Servers(x, w).value| ==> FromWire(Servers(x, w).value[i])
  {
    forall i | 0 <= i < |Servers(x, w).value| ensures FromWire(Servers(x, w).value[i]) {
      ServersFromWire(x, w, i);
    }
  }

  /** Everything an accepted snapshot guarantees about the router it compiles to. */
  lemma AcceptedIsOk(x: Syntax, w: Wire)
    requires Faithful(x) && Accept(x, w).Some?
    ensures RouterOk(x, Accept(x, w).value)
  {
    var r, b, servers, fe := Accept(x, w).value, FrameOf(x, w).value.build, Servers(x, w).value, WireFrontend(x);
    AllFromWire(x, w);
    BuildKeepsSettings(fe, b, servers);
    FrameExportable(x, w);
    KeysAre(fe, b, servers, r);
    RoutesGood(x, b, servers, r);
    forall key | key in r.listeners ensures ListenerOk(r, key, Good(x, r)) {
      ListenersGood(x, b, servers, r, Good(x, r), key);
    }
  }
}

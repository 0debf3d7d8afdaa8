/** Compiling server blocks into the router: listeners, virtual hosts, certificates and route ids. */
module RouterBuild {
  import opened Common
  import opened Config

  datatype Listen = Listen(key: ListenKey, defaultServer: bool, protocol: Protocol)

  datatype Provider = Custom(identity: TlsIdentity) | Issued

  /** A server block whose locations, of whatever source form `L`, are still to be compiled. */
  datatype Server<L> = Server(names: seq<string>, locations: seq<L>, listens: seq<Listen>, provider: Option<Provider>,
                              settings: TlsSettings)

  datatype BuildError =
    | TooManyNames
    | BadWildcard(name: string)
    | MixedMatchers
    | BadLocation(reason: string)
    | UnknownProfile(profile: string)
    | ScpNeedsHttp2
    | ProtocolConflict(key: ListenKey)
    | TlsConflict(key: ListenKey)

  /** How one location compiles; `None` is a location with nothing to act on. */
  datatype Frontend<!L> = Frontend(compile: (L, map<string, UpstreamGroup>) -> Result<Option<Content>, string>,
                                   isHttp: L -> bool)

  // ---- locations ----

  predicate Mixed<L>(fe: Frontend<L>, ls: seq<L>) {
    exists i, j :: 0 <= i < |ls| && 0 <= j < |ls| && fe.isHttp(ls[i]) && !fe.isHttp(ls[j])
  }

  /** Compiled locations are numbered in order, starting from `next`. */
  function CompileList<L>(fe: Frontend<L>, ls: seq<L>, upstreams: map<string, UpstreamGroup>,
                          next: nat): Result<Routes, BuildError> {
    if ls == [] then Ok([])
    else
      match fe.compile(ls[0], upstreams)
      case Err(reason) => Err(BadLocation(reason))
      case Ok(None) => CompileList(fe, ls[1..], upstreams, next)
      case Ok(Some(content)) =>
        match CompileList(fe, ls[1..], upstreams, next + 1)
        case Err(e) => Err(e)
        case Ok(more) => Ok([Location(next, content)] + more)
  }

  function CompileLocations<L>(fe: Frontend<L>, ls: seq<L>, upstreams: map<string, UpstreamGroup>,
                               next: nat): Result<Routes, BuildError> {
    if Mixed(fe, ls) then Err(MixedMatchers) else CompileList(fe, ls, upstreams, next)
  }

  predicate Numbered(routes: Routes, next: nat) { forall i :: 0 <= i < |routes| ==> routes[i].routeId == next + i }

  lemma {:induction false} CompileListNumbers<L>(fe: Frontend<L>, ls: seq<L>, upstreams: map<string, UpstreamGroup>,
                                                 next: nat)
    requires CompileList(fe, ls, upstreams, next).Ok?
    ensures Numbered(CompileList(fe, ls, upstreams, next).value, next)
  {
    if ls != [] {
      match fe.compile(ls[0], upstreams)
      case Ok(None) => CompileListNumbers(fe, ls[1..], upstreams, next);
      case Ok(Some(_)) => CompileListNumbers(fe, ls[1..], upstreams, next + 1);
    }
  }

  // ---- one server block ----

  predicate NameOk(name: string) {
    '*' in name ==> |name| >= 2 && name[..2] == "*." && ValidHostname(TrimDots(name[2..]))
  }

  const EmptyHosts := VirtualHosts(map[], None)

  function HostsAt(r: Router, key: ListenKey): VirtualHosts {
    if key in r.listeners then r.listeners[key] else EmptyHosts
  }

  function TlsAt(r: Router, key: ListenKey, settings: TlsSettings): ListenerTls {
    if key in r.tls then r.tls[key] else ListenerTls(map[], None, settings)
  }

  function NameSet(names: seq<string>): set<string> { set i | 0 <= i < |names| :: Normalize(names[i]) }

  /** Every name now means `v`; later server blocks win. */
  function WithNames<V>(m: map<string, V>, names: seq<string>, v: V): map<string, V> {
    m + (map n | n in NameSet(names) :: v)
  }

  function WithHosts(hosts: VirtualHosts, names: seq<string>, defaultServer: bool, routes: Routes): VirtualHosts {
    VirtualHosts(WithNames(hosts.named, names, routes),
                 if defaultServer || (names == [] && hosts.default.None?) then Some(routes) else hosts.default)
  }

  function WithIdentity(tls: ListenerTls, names: seq<string>, defaultServer: bool, identity: TlsIdentity): ListenerTls {
    ListenerTls(WithNames(tls.named, names, identity),
                if defaultServer || tls.default.None? || names == [] then Some(identity) else tls.default,
                tls.settings)
  }

  /** `Path::join`: an absolute name stands for itself. */
  function JoinPath(dir: string, name: string): string {
    if name != [] && name[0] == '/' then name
    else if dir == [] || dir[|dir| - 1] == '/' then dir + name
    else dir + "/" + name
  }

  const DEFAULT_CACHE_DIR := "/var/lib/ngxora/certs"

  /** The certificate of a block: its own, or the file a certificate for its first name is issued to. */
  function IdentityOf<L>(s: Server<L>, letsEncrypt: Option<LetsEncrypt>): Option<TlsIdentity> {
    match s.provider
    case None => None
    case Some(Custom(identity)) => Some(identity)
    case Some(Issued) =>
      var dir := if letsEncrypt.Some? && letsEncrypt.value.cacheDir.Some? then letsEncrypt.value.cacheDir.value
                 else DEFAULT_CACHE_DIR;
      var home := JoinPath(dir, if s.names == [] then "" else s.names[0]);
      Some(TlsIdentity(Path(JoinPath(home, "fullchain.pem")), Path(JoinPath(home, "privkey.pem"))))
  }

  function AddListen<L>(r: Router, s: Server<L>, routes: Routes, l: Listen): Result<Router, BuildError> {
    if l.key in r.protocols && r.protocols[l.key] != l.protocol then Err(ProtocolConflict(l.key))
    else
      var r1 := r.(protocols := r.protocols[l.key := l.protocol],
                listeners := r.listeners[l.key := WithHosts(HostsAt(r, l.key), s.names, l.defaultServer, routes)]);
      if !l.key.ssl then Ok(r1)
      else if l.key in r.tls && r.tls[l.key].settings != s.settings then Err(TlsConflict(l.key))
      else
        var tls := TlsAt(r, l.key, s.settings);
        var identity := IdentityOf(s, r.letsEncrypt);
        var tls1 := if identity.Some? then WithIdentity(tls, s.names, l.defaultServer, identity.value) else tls;
        Ok(r1.(tls := r.tls[l.key := tls1]))
  }

  function AddListens<L>(r: Router, s: Server<L>, routes: Routes, listens: seq<Listen>): Result<Router, BuildError>
    decreases |listens|
  {
    if listens == [] then Ok(r)
    else
      match AddListen(r, s, routes, listens[0])
      case Err(e) => Err(e)
      case Ok(r1) => AddListens(r1, s, routes, listens[1..])
  }

  /** A listener a service communication proxy can be reached through. */
  predicate SpeaksHttp2(l: Listen, h2c: bool) { if l.key.ssl then l.protocol.http2 else h2c }

  function ScpError<L>(r: Router, s: Server<L>, routes: Routes): Option<BuildError> {
    if routes == [] then None
    else
      var target := routes[0].content.target;
      if target.Scp? && target.profile !in r.profiles then Some(UnknownProfile(target.profile))
      else if target.Scp? && exists i :: 0 <= i < |s.listens| && !SpeaksHttp2(s.listens[i], r.options.h2c)
      then Some(ScpNeedsHttp2)
      else ScpError(r, s, routes[1..])
  }

  function NameError(names: seq<string>): Option<BuildError> {
    if names == [] then None else if !NameOk(names[0]) then Some(BadWildcard(names[0])) else NameError(names[1..])
  }

  /** What a server block's locations compile to, if the block passes the checks before it is installed. */
  function ServerRoutes<L>(fe: Frontend<L>, r: Router, next: nat, s: Server<L>): Result<Routes, BuildError> {
    if s.provider == Some(Issued) && |s.names| != 1 then Err(TooManyNames)
    else if NameError(s.names).Some? then Err(NameError(s.names).value)
    else
      match CompileLocations(fe, s.locations, r.upstreams, next)
      case Err(e) => Err(e)
      case Ok(routes) => if ScpError(r, s, routes).Some? then Err(ScpError(r, s, routes).value) else Ok(routes)
  }

  datatype Build = Build(router: Router, next: nat)

  function AddServer<L>(fe: Frontend<L>, b: Build, s: Server<L>): Result<Build, BuildError> {
    match ServerRoutes(fe, b.router, b.next, s)
    case Err(e) => Err(e)
    case Ok(routes) =>
      match AddListens(b.router, s, routes, s.listens)
      case Err(e) => Err(e)
      case Ok(router) => Ok(Build(router, b.next + |routes|))
  }

  function AddServers<L>(fe: Frontend<L>, b: Build, servers: seq<Server<L>>): Result<Build, BuildError> {
    if servers == [] then Ok(b)
    else
      match AddServers(fe, b, servers[..|servers| - 1])
      case Err(e) => Err(e)
      case Ok(before) => AddServer(fe, before, servers[|servers| - 1])
  }

  // ---- the builder, changed in place ----

  class Builder {
    var router: Router
    var nextRouteId: nat

    constructor (router: Router)
      ensures this.router == router && nextRouteId == 1
    {
      this.router := router;
      nextRouteId := 1;
    }

    method CompileLocationsAt<L>(fe: Frontend<L>, ls: seq<L>) returns (r: Result<Routes, BuildError>)
      modifies this`nextRouteId
      ensures r == CompileLocations(fe, ls, router.upstreams, old(nextRouteId))
      ensures r.Ok? ==> nextRouteId == old(nextRouteId) + |r.value| && Numbered(r.value, old(nextRouteId))
    {
      if Mixed(fe, ls) {
        return Err(MixedMatchers);
      }
      var routes: Routes := [];
      var i := 0;
      ghost var start := nextRouteId;
      assert ls[0..] == ls;
      ContinueNone(CompileList(fe, ls, router.upstreams, start));
      while i < |ls|
        invariant 0 <= i <= |ls| && nextRouteId == start + |routes| && Numbered(routes, start)
        invariant CompileList(fe, ls, router.upstreams, start)
               == Continue(routes, CompileList(fe, ls[i..], router.upstreams, nextRouteId))
      {
        assert ls[i..][1..] == ls[i + 1..];
        match fe.compile(ls[i], router.upstreams) {
          case Err(reason) => return Err(BadLocation(reason));
          case Ok(None) =>
          case Ok(Some(content)) =>
            ContinueOne(routes, Location(nextRouteId, content),
                        CompileList(fe, ls[i + 1..], router.upstreams, nextRouteId + 1));
            routes := routes + [Location(nextRouteId, content)];
            nextRouteId := nextRouteId + 1;
        }
        i := i + 1;
      }
      assert routes + [] == routes;
      return Ok(routes);
    }

    method AddListenAt<L>(s: Server<L>, routes: Routes, l: Listen) returns (r: Result<(), BuildError>)
      modifies this`router
      ensures match AddListen(old(router), s, routes, l)
              case Ok(after) => r == Ok(()) && router == after
              case Err(e) => r == Err(e)
    {
      if l.key in router.protocols && router.protocols[l.key] != l.protocol {
        return Err(ProtocolConflict(l.key));
      }
      ghost var before := router;
      var hosts := HostsAt(router, l.key);
      router := router.(protocols := router.protocols[l.key := l.protocol]);
      var named := InsertNames(hosts.named, s.names, routes);
      var default := if l.defaultServer || (s.names == [] && hosts.default.None?) then Some(routes) else hosts.default;
      router := router.(listeners := router.listeners[l.key := VirtualHosts(named, default)]);
      if l.key.ssl {
        if l.key in router.tls && router.tls[l.key].settings != s.settings {
          return Err(TlsConflict(l.key));
        }
        var tls := TlsAt(router, l.key, s.settings);
        var identity := IdentityOf(s, router.letsEncrypt);
        if identity.Some? {
          var names := InsertNames(tls.named, s.names, identity.value);
          var fallback := if l.defaultServer || tls.default.None? || s.names == [] then identity else tls.default;
          tls := ListenerTls(names, fallback, tls.settings);
        }
        router := router.(tls := router.tls[l.key := tls]);
      }
      return Ok(());
    }

    method AddServerAt<L>(fe: Frontend<L>, s: Server<L>) returns (r: Result<(), BuildError>)
      modifies this
      ensures match AddServer(fe, Build(old(router), old(nextRouteId)), s)
              case Ok(after) => r == Ok(()) && router == after.router && nextRouteId == after.next
              case Err(e) => r == Err(e)
    {
      if s.provider == Some(Issued) && |s.names| != 1 {
        return Err(TooManyNames);
      }
      var bad := NameError(s.names);
      if bad.Some? {
        return Err(bad.value);
      }
      ghost var before := Build(router, nextRouteId);
      var routes := CompileLocationsAt(fe, s.locations);
      if routes.Err? {
        return Err(routes.error);
      }
      var scp := ScpError(router, s, routes.value);
      if scp.Some? {
        return Err(scp.value);
      }
      var i := 0;
      assert s.listens[0..] == s.listens;
      while i < |s.listens|
        invariant 0 <= i <= |s.listens| && nextRouteId == before.next + |routes.value|
        invariant AddListens(before.router, s, routes.value, s.listens)
               == AddListens(router, s, routes.value, s.listens[i..])
      {
        assert s.listens[i..][1..] == s.listens[i + 1..];
        var added := AddListenAt(s, routes.value, s.listens[i]);
        if added.Err? {
          return Err(added.error);
        }
        i := i + 1;
      }
      return Ok(());
    }

    /** The server blocks, one after another; the first that fails decides the error. */
    method AddServersAt<L>(fe: Frontend<L>, servers: seq<Server<L>>) returns (r: Result<(), BuildError>)
      modifies this
      ensures match AddServers(fe, Build(old(router), old(nextRouteId)), servers)
              case Ok(after) => r == Ok(()) && router == after.router && nextRouteId == after.next
              case Err(e) => r == Err(e)
    {
      ghost var start := Build(router, nextRouteId);
      for i := 0 to |servers|
        invariant AddServers(fe, start, servers[..i]) == Ok(Build(router, nextRouteId))
      {
        assert servers[..i + 1][..i] == servers[..i];
        var added := AddServerAt(fe, servers[i]);
        if added.Err? {
          FailureStays(fe, start, servers, i + 1);
          return Err(added.error);
        }
      }
      assert servers[..|servers|] == servers;
      return Ok(());
    }
  }

  lemma {:induction false} FailureStays<L>(fe: Frontend<L>, b: Build, servers: seq<Server<L>>, n: nat)
    requires n <= |servers| && AddServers(fe, b, servers[..n]).Err?
    ensures AddServers(fe, b, servers) == AddServers(fe, b, servers[..n])
    decreases |servers|
  {
    if n == |servers| {
      assert servers[..n] == servers;
    } else {
      assert servers[..|servers| - 1][..n] == servers[..n];
      FailureStays(fe, b, servers[..|servers| - 1], n);
    }
  }

  function Continue(routes: Routes, r: Result<Routes, BuildError>): Result<Routes, BuildError> {
    match r case Ok(more) => Ok(routes + more) case Err(e) => Err(e)
  }

  lemma ContinueNone(r: Result<Routes, BuildError>)
    ensures Continue([], r) == r
  {
    if r.Ok? { assert [] + r.value == r.value; }
  }

  lemma ContinueOne(routes: Routes, l: Location, r: Result<Routes, BuildError>)
    ensures Continue(routes + [l], r) == Continue(routes, match r case Ok(more) => Ok([l] + more) case Err(e) => Err(e))
  {
    if r.Ok? { assert (routes + [l]) + r.value == routes + ([l] + r.value); }
  }

  method InsertNames<V>(m: map<string, V>, names: seq<string>, v: V) returns (out: map<string, V>)
    ensures out == WithNames(m, names, v)
  {
    out := m;
    ghost var done: set<string> := {};
    for i := 0 to |names|
      invariant done == NameSet(names[..i]) && out == m + (map n | n in done :: v)
    {
      NameSetGrows(names, i);
      OneMoreName(m, done, Normalize(names[i]), v);
      done := done + {Normalize(names[i])};
      out := out[Normalize(names[i]) := v];
    }
    assert names[..|names|] == names;
  }

  lemma OneMoreName<V>(m: map<string, V>, done: set<string>, name: string, v: V)
    ensures (m + (map n | n in done :: v))[name := v] == m + (map n | n in done + {name} :: v)
  {
  }

  lemma NameSetGrows(names: seq<string>, i: nat)
    requires i < |names|
    ensures NameSet(names[..i + 1]) == NameSet(names[..i]) + {Normalize(names[i])}
  {
    var big := names[..i + 1];
    assert big[i] == names[i] && forall j :: 0 <= j < i ==> big[j] == names[..i][j];
    assert Normalize(big[i]) in NameSet(big);
    forall n | n in NameSet(names[..i]) ensures n in NameSet(big) {
      var j :| 0 <= j < i && n == Normalize(names[..i][j]);
      assert n == Normalize(big[j]);
    }
    forall n | n in NameSet(big) ensures n in NameSet(names[..i]) + {Normalize(names[i])} {
      var j :| 0 <= j <= i && n == Normalize(big[j]);
      if j < i { assert n == Normalize(names[..i][j]); }
    }
  }

  // ---- route ids ----

  /** Every location is in the table under its own id. */
  predicate RoutesIn(routes: Routes, table: map<nat, Content>) {
    forall i :: 0 <= i < |routes| ==> routes[i].routeId in table && table[routes[i].routeId] == routes[i].content
  }

  predicate HostsIn(hosts: VirtualHosts, table: map<nat, Content>) {
    && (forall n :: n in hosts.named ==> RoutesIn(hosts.named[n], table))
    && (hosts.default.Some? ==> RoutesIn(hosts.default.value, table))
  }

  predicate RouterIn(r: Router, table: map<nat, Content>) {
    forall k :: k in r.listeners ==> HostsIn(r.listeners[k], table)
  }

  predicate Below(table: map<nat, Content>, next: nat) { forall id :: id in table ==> id < next }

  /** Somewhere in the router: under a name of some listener, or as its default. */
  ghost predicate Holds(r: Router, l: Location) {
    exists k, routes :: k in r.listeners && Serves(r.listeners[k], routes) && l in routes
  }

  ghost predicate Serves(hosts: VirtualHosts, routes: Routes) {
    hosts.default == Some(routes) || exists n :: n in hosts.named && hosts.named[n] == routes
  }

  function TableOf(routes: Routes, table: map<nat, Content>): map<nat, Content> {
    if routes == [] then table
    else TableOf(routes[..|routes| - 1], table)[routes[|routes| - 1].routeId := routes[|routes| - 1].content]
  }

  /** Freshly numbered locations extend the table and change nothing in it. */
  lemma {:induction false} TableGrows(routes: Routes, table: map<nat, Content>, next: nat)
    requires Numbered(routes, next) && Below(table, next)
    ensures RoutesIn(routes, TableOf(routes, table)) && Below(TableOf(routes, table), next + |routes|)
    ensures forall id :: id in table ==> id in TableOf(routes, table) && TableOf(routes, table)[id] == table[id]
  {
    if routes != [] {
      var front := routes[..|routes| - 1];
      TableGrows(front, table, next);
      forall i | 0 <= i < |routes| - 1
        ensures routes[i].routeId in TableOf(routes, table)
        ensures TableOf(routes, table)[routes[i].routeId] == routes[i].content
      {
        assert front[i] == routes[i];
      }
    }
  }

  lemma WithHostsIn(hosts: VirtualHosts, names: seq<string>, defaultServer: bool, routes: Routes,
                    table: map<nat, Content>)
    requires HostsIn(hosts, table) && RoutesIn(routes, table)
    ensures HostsIn(WithHosts(hosts, names, defaultServer, routes), table)
  {
    var named := WithNames(hosts.named, names, routes);
    forall n | n in named ensures RoutesIn(named[n], table) {
      assert named[n] == routes || (n in hosts.named && named[n] == hosts.named[n]);
    }
  }

  /** What one listen does, listener by listener. */
  lemma AddListenIs<L>(r: Router, s: Server<L>, routes: Routes, l: Listen)
    requires AddListen(r, s, routes, l).Ok?
    ensures var t := AddListen(r, s, routes, l).value;
            t.listeners == r.listeners[l.key := WithHosts(HostsAt(r, l.key), s.names, l.defaultServer, routes)]
            && SameSettings(r, t)
  {
  }

  /** Everything but listeners, their protocols and their certificates. */
  predicate SameSettings(r: Router, t: Router) {
    t == r.(listeners := t.listeners, protocols := t.protocols, tls := t.tls)
  }

  lemma AddListenKeepsTable<L>(r: Router, s: Server<L>, routes: Routes, l: Listen, table: map<nat, Content>)
    requires RouterIn(r, table) && RoutesIn(routes, table) && AddListen(r, s, routes, l).Ok?
    ensures RouterIn(AddListen(r, s, routes, l).value, table)
  {
    AddListenIs(r, s, routes, l);
    WithHostsIn(HostsAt(r, l.key), s.names, l.defaultServer, routes, table);
  }

  lemma {:induction false} AddListensKeepsTable<L>(r: Router, s: Server<L>, routes: Routes, listens: seq<Listen>,
                                                   table: map<nat, Content>)
    requires RouterIn(r, table) && RoutesIn(routes, table) && AddListens(r, s, routes, listens).Ok?
    ensures RouterIn(AddListens(r, s, routes, listens).value, table)
    decreases |listens|
  {
    if listens != [] {
      AddListenKeepsTable(r, s, routes, listens[0], table);
      AddListensKeepsTable(AddListen(r, s, routes, listens[0]).value, s, routes, listens[1..], table);
    }
  }

  lemma WiderTable(r: Router, table: map<nat, Content>, wider: map<nat, Content>)
    requires RouterIn(r, table)
    requires forall id :: id in table ==> id in wider && wider[id] == table[id]
    ensures RouterIn(r, wider)
  {
    forall k | k in r.listeners ensures HostsIn(r.listeners[k], wider) {
      assert HostsIn(r.listeners[k], table);
    }
  }

  /** However many blocks, listeners, aliases and defaults share locations, one table holds them all by id. */
  lemma {:induction false} BuiltFromTable<L>(fe: Frontend<L>, b: Build, servers: seq<Server<L>>)
    returns (table: map<nat, Content>)
    requires b.router.listeners == map[] && AddServers(fe, b, servers).Ok?
    ensures RouterIn(AddServers(fe, b, servers).value.router, table)
    ensures Below(table, AddServers(fe, b, servers).value.next)
  {
    if servers == [] {
      table := map[];
    } else {
      var before, s := AddServers(fe, b, servers[..|servers| - 1]).value, servers[|servers| - 1];
      var small := BuiltFromTable(fe, b, servers[..|servers| - 1]);
      var routes := ServerRoutes(fe, before.router, before.next, s).value;
      CompileListNumbers(fe, s.locations, before.router.upstreams, before.next);
      TableGrows(routes, small, before.next);
      table := TableOf(routes, small);
      WiderTable(before.router, small, table);
      AddListensKeepsTable(before.router, s, routes, s.listens, table);
    }
  }

  /** Two locations of a compiled router with the same route id are the same location. */
  lemma RouteIdsIdentify<L>(fe: Frontend<L>, b: Build, servers: seq<Server<L>>, x: Location, y: Location)
    requires b.router.listeners == map[] && AddServers(fe, b, servers).Ok?
    requires var r := AddServers(fe, b, servers).value.router; Holds(r, x) && Holds(r, y)
    requires x.routeId == y.routeId
    ensures x == y
  {
    var r := AddServers(fe, b, servers).value.router;
    var table := BuiltFromTable(fe, b, servers);
    HeldInTable(r, table, x);
    HeldInTable(r, table, y);
  }

  lemma HeldInTable(r: Router, table: map<nat, Content>, l: Location)
    requires RouterIn(r, table) && Holds(r, l)
    ensures l.routeId in table && table[l.routeId] == l.content
  {
    var k, routes :| k in r.listeners && Serves(r.listeners[k], routes) && l in routes;
    assert HostsIn(r.listeners[k], table);
    assert RoutesIn(routes, table);
  }

  // ---- which block owns a name ----

  predicate ListedOn(listens: seq<Listen>, key: ListenKey) { exists i :: 0 <= i < |listens| && listens[i].key == key }

  /** The last block listening on `key` that lists the name. */
  function Owners<L>(servers: seq<Server<L>>, key: ListenKey): map<string, nat> {
    if servers == [] then map[]
    else
      var before, s := Owners(servers[..|servers| - 1], key), servers[|servers| - 1];
      if ListedOn(s.listens, key) then WithNames<nat>(before, s.names, |servers| - 1) else before
  }

  /** An owner listens on the key and lists the name. */
  lemma {:induction false} OwnerLists<L>(servers: seq<Server<L>>, key: ListenKey, n: string)
    requires n in Owners(servers, key)
    ensures var i := Owners(servers, key)[n];
            i < |servers| && ListedOn(servers[i].listens, key) && n in NameSet(servers[i].names)
  {
    var front, s := servers[..|servers| - 1], servers[|servers| - 1];
    if !ListedOn(s.listens, key) || n !in NameSet(s.names) { OwnerLists(front, key, n); }
  }

  /** The compiled locations of each block. */
  function Blocks<L>(fe: Frontend<L>, b: Build, servers: seq<Server<L>>): (blocks: seq<Routes>)
    requires AddServers(fe, b, servers).Ok?
    ensures |blocks| == |servers|
  {
    if servers == [] then []
    else
      var front, s := servers[..|servers| - 1], servers[|servers| - 1];
      var before := AddServers(fe, b, front).value;
      Blocks(fe, b, front) + [ServerRoutes(fe, before.router, before.next, s).value]
  }

  const NoIdentity := TlsIdentity(Path(""), Path(""))

  function CertOf<L>(s: Server<L>, letsEncrypt: Option<LetsEncrypt>): TlsIdentity {
    var identity := IdentityOf(s, letsEncrypt);
    if identity.Some? then identity.value else NoIdentity
  }

  predicate Certified<L>(servers: seq<Server<L>>, key: ListenKey) {
    forall i :: 0 <= i < |servers| && ListedOn(servers[i].listens, key) ==> servers[i].provider.Some?
  }

  function TlsNames(r: Router, key: ListenKey): map<string, TlsIdentity> {
    if key in r.tls then r.tls[key].named else map[]
  }

  lemma WithNamesTwice<V>(m: map<string, V>, names: seq<string>, v: V)
    ensures WithNames(WithNames(m, names, v), names, v) == WithNames(m, names, v)
  {
  }

  lemma ListedFirst(listens: seq<Listen>, key: ListenKey)
    requires listens != []
    ensures ListedOn(listens, key) <==> listens[0].key == key || ListedOn(listens[1..], key)
  {
    assert forall i :: 0 <= i < |listens[1..]| ==> listens[1..][i] == listens[i + 1];
    if ListedOn(listens, key) && listens[0].key != key {
      var i :| 0 <= i < |listens| && listens[i].key == key;
      assert listens[1..][i - 1].key == key;
    }
  }

  lemma {:induction false} AddListensSettings<L>(r: Router, s: Server<L>, routes: Routes, listens: seq<Listen>)
    requires AddListens(r, s, routes, listens).Ok?
    ensures SameSettings(r, AddListens(r, s, routes, listens).value)
    decreases |listens|
  {
    if listens != [] {
      AddListenIs(r, s, routes, listens[0]);
      AddListensSettings(AddListen(r, s, routes, listens[0]).value, s, routes, listens[1..]);
    }
  }

  /** What a block's listens do to the names of one listener. */
  lemma {:induction false} AddListensHosts<L>(r: Router, s: Server<L>, routes: Routes, listens: seq<Listen>,
                                              key: ListenKey)
    requires AddListens(r, s, routes, listens).Ok?
    ensures HostsAt(AddListens(r, s, routes, listens).value, key).named
         == if ListedOn(listens, key) then WithNames(HostsAt(r, key).named, s.names, routes) else HostsAt(r, key).named
    decreases |listens|
  {
    if listens != [] {
      AddListenIs(r, s, routes, listens[0]);
      AddListensHosts(AddListen(r, s, routes, listens[0]).value, s, routes, listens[1..], key);
      ListedFirst(listens, key);
      WithNamesTwice(HostsAt(r, key).named, s.names, routes);
    }
  }

  /** And to its certificates, when the block has one. */
  lemma AddListenCert<L>(r: Router, s: Server<L>, routes: Routes, l: Listen, key: ListenKey)
    requires AddListen(r, s, routes, l).Ok? && key.ssl && s.provider.Some?
    ensures var t := AddListen(r, s, routes, l).value;
            TlsNames(t, key) == if l.key == key then WithNames(TlsNames(r, key), s.names, CertOf(s, r.letsEncrypt))
            else TlsNames(r, key)
  {
  }

  lemma {:induction false} AddListensCerts<L>(r: Router, s: Server<L>, routes: Routes, listens: seq<Listen>,
                                              key: ListenKey)
    requires AddListens(r, s, routes, listens).Ok? && key.ssl && s.provider.Some?
    ensures TlsNames(AddListens(r, s, routes, listens).value, key)
         == if ListedOn(listens, key) then WithNames(TlsNames(r, key), s.names, CertOf(s, r.letsEncrypt))
            else TlsNames(r, key)
    decreases |listens|
  {
    if listens != [] {
      AddListenCert(r, s, routes, listens[0], key);
      AddListenIs(r, s, routes, listens[0]);
      AddListensCerts(AddListen(r, s, routes, listens[0]).value, s, routes, listens[1..], key);
      ListedFirst(listens, key);
      WithNamesTwice(TlsNames(r, key), s.names, CertOf(s, r.letsEncrypt));
    }
  }

  lemma {:induction false} AddListensElsewhere<L>(r: Router, s: Server<L>, routes: Routes, listens: seq<Listen>,
                                                  key: ListenKey)
    requires AddListens(r, s, routes, listens).Ok? && !ListedOn(listens, key)
    ensures TlsNames(AddListens(r, s, routes, listens).value, key) == TlsNames(r, key)
    decreases |listens|
  {
    if listens != [] {
      ListedFirst(listens, key);
      AddListensElsewhere(AddListen(r, s, routes, listens[0]).value, s, routes, listens[1..], key);
    }
  }

  ghost predicate Follows<V>(m: map<string, V>, owners: map<string, nat>, vs: seq<V>) {
    m.Keys == owners.Keys && forall n :: n in owners ==> owners[n] < |vs| && m[n] == vs[owners[n]]
  }

  lemma WithNamesFollows<V>(m: map<string, V>, owners: map<string, nat>, vs: seq<V>, names: seq<string>, v: V)
    requires Follows(m, owners, vs)
    ensures Follows(WithNames(m, names, v), WithNames<nat>(owners, names, |vs|), vs + [v])
  {
  }

  lemma WiderFollows<V>(m: map<string, V>, owners: map<string, nat>, vs: seq<V>, v: V)
    requires Follows(m, owners, vs)
    ensures Follows(m, owners, vs + [v])
  {
  }

  function Certs<L>(servers: seq<Server<L>>, letsEncrypt: Option<LetsEncrypt>): seq<TlsIdentity> {
    seq(|servers|, i requires 0 <= i < |servers| => CertOf(servers[i], letsEncrypt))
  }

  lemma CertifiedFront<L>(servers: seq<Server<L>>, key: ListenKey, letsEncrypt: Option<LetsEncrypt>)
    requires servers != [] && Certified(servers, key)
    ensures var front, s := servers[..|servers| - 1], servers[|servers| - 1];
            && Certified(front, key) && (ListedOn(s.listens, key) ==> s.provider.Some?)
            && Certs(servers, letsEncrypt) == Certs(front, letsEncrypt) + [CertOf(s, letsEncrypt)]
  {
    var front := servers[..|servers| - 1];
    assert forall i :: 0 <= i < |front| ==> front[i] == servers[i];
  }

  lemma {:induction false} BuildKeepsSettings<L>(fe: Frontend<L>, b: Build, servers: seq<Server<L>>)
    requires AddServers(fe, b, servers).Ok?
    ensures SameSettings(b.router, AddServers(fe, b, servers).value.router)
  {
    if servers != [] {
      var front, s := servers[..|servers| - 1], servers[|servers| - 1];
      BuildKeepsSettings(fe, b, front);
      var before := AddServers(fe, b, front).value;
      AddListensSettings(before.router, s, ServerRoutes(fe, before.router, before.next, s).value, s.listens);
    }
  }

  /** On every listener each name has the routes of its owner. */
  lemma {:induction false} RoutesFollowOwners<L>(fe: Frontend<L>, b: Build, servers: seq<Server<L>>, key: ListenKey)
    requires b.router.listeners == map[] && AddServers(fe, b, servers).Ok?
    ensures Follows(HostsAt(AddServers(fe, b, servers).value.router, key).named, Owners(servers, key),
                    Blocks(fe, b, servers))
  {
    if servers != [] {
      var front, s := servers[..|servers| - 1], servers[|servers| - 1];
      RoutesFollowOwners(fe, b, front, key);
      var before := AddServers(fe, b, front).value;
      var routes := ServerRoutes(fe, before.router, before.next, s).value;
      AddListensHosts(before.router, s, routes, s.listens, key);
      var named := HostsAt(before.router, key).named;
      WithNamesFollows(named, Owners(front, key), Blocks(fe, b, front), s.names, routes);
      WiderFollows(named, Owners(front, key), Blocks(fe, b, front), routes);
    }
  }

  /** On a TLS listener all of whose blocks have a certificate each name has the certificate of its owner. */
  lemma {:induction false} CertsFollowOwners<L>(fe: Frontend<L>, b: Build, servers: seq<Server<L>>, key: ListenKey)
    requires b.router.tls == map[] && AddServers(fe, b, servers).Ok? && key.ssl && Certified(servers, key)
    ensures Follows(TlsNames(AddServers(fe, b, servers).value.router, key), Owners(servers, key),
                    Certs(servers, b.router.letsEncrypt))
  {
    if servers != [] {
      var front, s := servers[..|servers| - 1], servers[|servers| - 1];
      CertifiedFront(servers, key, b.router.letsEncrypt);
      CertsFollowOwners(fe, b, front, key);
      BuildKeepsSettings(fe, b, front);
      var before := AddServers(fe, b, front).value;
      var routes := ServerRoutes(fe, before.router, before.next, s).value;
      var certs, cert := Certs(front, b.router.letsEncrypt), CertOf(s, b.router.letsEncrypt);
      var named := TlsNames(before.router, key);
      if ListedOn(s.listens, key) {
        AddListensCerts(before.router, s, routes, s.listens, key);
        WithNamesFollows(named, Owners(front, key), certs, s.names, cert);
      } else {
        AddListensElsewhere(before.router, s, routes, s.listens, key);
        WiderFollows(named, Owners(front, key), certs, cert);
      }
    }
  }
}

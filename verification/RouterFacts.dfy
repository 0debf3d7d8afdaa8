/** What compiling server blocks installs, listener by listener, and when it succeeds. */
module RouterFacts {
  import opened Common
  import opened Config
  import opened RouterBuild

  predicate Single<L>(s: Server<L>) { |s.listens| == 1 }

  predicate AllSingle<L>(servers: seq<Server<L>>) { forall i :: 0 <= i < |servers| ==> Single(servers[i]) }

  function KeyOf<L>(s: Server<L>): ListenKey
    requires Single(s)
  {
    s.listens[0].key
  }

  /** A listen for the key is marked default. */
  predicate DefaultOn(listens: seq<Listen>, key: ListenKey) {
    exists i :: 0 <= i < |listens| && listens[i].key == key && listens[i].defaultServer
  }

  lemma SingleListed<L>(s: Server<L>, key: ListenKey)
    requires Single(s)
    ensures ListedOn(s.listens, key) <==> key == KeyOf(s)
    ensures DefaultOn(s.listens, key) <==> key == KeyOf(s) && s.listens[0].defaultServer
  {
    if key == KeyOf(s) { assert s.listens[0].key == key; }
  }

  /** How the last block of a list was compiled and installed. */
  lemma LastBlock<L>(fe: Frontend<L>, b: Build, servers: seq<Server<L>>) returns (before: Build, routes: Routes)
    requires servers != [] && AddServers(fe, b, servers).Ok?
    ensures AddServers(fe, b, servers[..|servers| - 1]) == Ok(before)
    ensures ServerRoutes(fe, before.router, before.next, servers[|servers| - 1]) == Ok(routes)
    ensures AddListens(before.router, servers[|servers| - 1], routes, servers[|servers| - 1].listens)
         == Ok(AddServers(fe, b, servers).value.router)
    ensures Blocks(fe, b, servers) == Blocks(fe, b, servers[..|servers| - 1]) + [routes]
  {
    before := AddServers(fe, b, servers[..|servers| - 1]).value;
    routes := ServerRoutes(fe, before.router, before.next, servers[|servers| - 1]).value;
  }

  /** The last block was compiled with the settings the router started from. */
  lemma LastCompiled<L>(fe: Frontend<L>, b: Build, servers: seq<Server<L>>) returns (next: nat)
    requires servers != [] && AddServers(fe, b, servers).Ok?
    ensures ServerRoutes(fe, b.router, next, servers[|servers| - 1]) == Ok(Blocks(fe, b, servers)[|servers| - 1])
  {
    var before, routes := LastBlock(fe, b, servers);
    BuildKeepsSettings(fe, b, servers[..|servers| - 1]);
    next := before.next;
    SameServerRoutes(fe, b.router, before.router, next, servers[|servers| - 1]);
  }

  /** So was block `i`. */
  lemma {:induction false} BlockCompiled<L>(fe: Frontend<L>, b: Build, servers: seq<Server<L>>, i: nat)
    returns (next: nat)
    requires i < |servers| && AddServers(fe, b, servers).Ok?
    ensures ServerRoutes(fe, b.router, next, servers[i]) == Ok(Blocks(fe, b, servers)[i])
    decreases |servers|
  {
    if i < |servers| - 1 {
      var before, routes := LastBlock(fe, b, servers);
      next := BlockCompiled(fe, b, servers[..|servers| - 1], i);
      assert Blocks(fe, b, servers)[i] == Blocks(fe, b, servers[..|servers| - 1])[i];
    } else {
      next := LastCompiled(fe, b, servers);
    }
  }

  /** A block accepted with an issued certificate has exactly the one name it is issued for. */
  lemma IssuedHasOneName<L>(fe: Frontend<L>, b: Build, servers: seq<Server<L>>, i: nat)
    requires AddServers(fe, b, servers).Ok? && i < |servers| && servers[i].provider == Some(Issued)
    ensures |servers[i].names| == 1
  {
    var next := BlockCompiled(fe, b, servers, i);
  }

  lemma {:induction false} SameScpError<L>(r: Router, t: Router, s: Server<L>, routes: Routes)
    requires SameSettings(r, t)
    ensures ScpError(r, s, routes) == ScpError(t, s, routes)
    decreases |routes|
  {
    if routes != [] { SameScpError(r, t, s, routes[1..]); }
  }

  /** Compiling a block looks only at settings that installing blocks never changes. */
  lemma SameServerRoutes<L>(fe: Frontend<L>, r: Router, t: Router, next: nat, s: Server<L>)
    requires SameSettings(r, t)
    ensures ServerRoutes(fe, r, next, s) == ServerRoutes(fe, t, next, s)
  {
    var routes := CompileLocations(fe, s.locations, r.upstreams, next);
    if routes.Ok? { SameScpError(r, t, s, routes.value); }
  }

  // ---- contents ----

  function Contents(routes: Routes): seq<Content> { seq(|routes|, i requires 0 <= i < |routes| => routes[i].content) }

  /** What a list of locations compiles to, apart from the numbering. */
  function Compiled<L>(fe: Frontend<L>, ls: seq<L>, ups: map<string, UpstreamGroup>): Option<seq<Content>> {
    if ls == [] then Some([])
    else
      match fe.compile(ls[0], ups)
      case Err(_) => None
      case Ok(None) => Compiled(fe, ls[1..], ups)
      case Ok(Some(c)) => match Compiled(fe, ls[1..], ups) case None => None case Some(more) => Some([c] + more)
  }

  lemma {:induction false} CompiledIs<L>(fe: Frontend<L>, ls: seq<L>, ups: map<string, UpstreamGroup>, cs: seq<Content>)
    requires |cs| == |ls| && forall i :: 0 <= i < |ls| ==> fe.compile(ls[i], ups) == Ok(Some(cs[i]))
    ensures Compiled(fe, ls, ups) == Some(cs)
    decreases |ls|
  {
    if ls != [] {
      CompiledIs(fe, ls[1..], ups, cs[1..]);
      assert cs == [cs[0]] + cs[1..];
    }
  }

  lemma {:induction false} CompileListContents<L>(fe: Frontend<L>, ls: seq<L>, ups: map<string, UpstreamGroup>,
                                                  next: nat)
    ensures CompileList(fe, ls, ups, next).Ok? <==> Compiled(fe, ls, ups).Some?
    ensures CompileList(fe, ls, ups, next).Ok?
            ==> Compiled(fe, ls, ups) == Some(Contents(CompileList(fe, ls, ups, next).value))
  {
    if ls == [] {
      assert Contents([]) == [];
    } else {
      match fe.compile(ls[0], ups)
      case Err(_) =>
      case Ok(None) => CompileListContents(fe, ls[1..], ups, next);
      case Ok(Some(c)) =>
        CompileListContents(fe, ls[1..], ups, next + 1);
        if CompileList(fe, ls[1..], ups, next + 1).Ok? {
          var more := CompileList(fe, ls[1..], ups, next + 1).value;
          assert Contents([Location(next, c)] + more) == [c] + Contents(more);
        }
    }
  }

  // ---- every route held by a listener ----

  type RouteProperty = (ListenKey, Routes) -> bool

  predicate HostsSatisfy(key: ListenKey, hosts: VirtualHosts, p: RouteProperty) {
    (forall n :: n in hosts.named ==> p(key, hosts.named[n])) && (hosts.default.Some? ==> p(key, hosts.default.value))
  }

  predicate RouterSatisfies(r: Router, p: RouteProperty) {
    forall k :: k in r.listeners ==> HostsSatisfy(k, r.listeners[k], p)
  }

  lemma AddListenSatisfies<L>(r: Router, s: Server<L>, routes: Routes, l: Listen, p: RouteProperty)
    requires RouterSatisfies(r, p) && p(l.key, routes) && AddListen(r, s, routes, l).Ok?
    ensures RouterSatisfies(AddListen(r, s, routes, l).value, p)
  {
    AddListenIs(r, s, routes, l);
    var hosts := HostsAt(r, l.key);
    var named := WithNames(hosts.named, s.names, routes);
    forall n | n in named ensures p(l.key, named[n]) {
      assert named[n] == routes || (n in hosts.named && named[n] == hosts.named[n]);
    }
  }

  lemma {:induction false} AddListensSatisfies<L>(r: Router, s: Server<L>, routes: Routes, listens: seq<Listen>,
                                                  p: RouteProperty)
    requires RouterSatisfies(r, p) && AddListens(r, s, routes, listens).Ok?
    requires forall i :: 0 <= i < |listens| ==> p(listens[i].key, routes)
    ensures RouterSatisfies(AddListens(r, s, routes, listens).value, p)
    decreases |listens|
  {
    if listens != [] {
      AddListenSatisfies(r, s, routes, listens[0], p);
      AddListensSatisfies(AddListen(r, s, routes, listens[0]).value, s, routes, listens[1..], p);
    }
  }

  /** The property holds of a block on every listener it is for. */
  predicate Satisfies<L>(s: Server<L>, block: Routes, p: RouteProperty) {
    forall j :: 0 <= j < |s.listens| ==> p(s.listens[j].key, block)
  }

  /** Whatever holds of each block on the listeners it is for holds of all routes of all listeners. */
  lemma {:induction false} HeldSatisfy<L>(fe: Frontend<L>, b: Build, servers: seq<Server<L>>, p: RouteProperty)
    requires b.router.listeners == map[] && AddServers(fe, b, servers).Ok?
    requires forall i :: 0 <= i < |servers| ==> Satisfies(servers[i], Blocks(fe, b, servers)[i], p)
    ensures RouterSatisfies(AddServers(fe, b, servers).value.router, p)
  {
    if servers != [] {
      var front, s := servers[..|servers| - 1], servers[|servers| - 1];
      var before, routes := LastBlock(fe, b, servers);
      forall i | 0 <= i < |front| ensures Satisfies(front[i], Blocks(fe, b, front)[i], p) {
        assert front[i] == servers[i] && Blocks(fe, b, servers)[i] == Blocks(fe, b, front)[i];
      }
      HeldSatisfy(fe, b, front, p);
      assert Blocks(fe, b, servers)[|front|] == routes && Satisfies(s, routes, p);
      AddListensSatisfies(before.router, s, routes, s.listens, p);
    }
  }

  // ---- transport settings ----

  /** Each listener with the protocol, and if it is a TLS listener the settings, that go with its key. */
  ghost predicate Transports(r: Router, protocol: ListenKey -> Protocol, settings: ListenKey -> TlsSettings) {
    && r.protocols.Keys == r.listeners.Keys
    && (forall k :: k in r.listeners ==> r.protocols[k] == protocol(k))
    && (forall k :: k in r.tls <==> k in r.listeners && k.ssl)
    && (forall k :: k in r.tls ==> r.tls[k].settings == settings(k))
  }

  predicate ListenFits(l: Listen, own: TlsSettings, protocol: ListenKey -> Protocol,
                       settings: ListenKey -> TlsSettings) {
    l.protocol == protocol(l.key) && (l.key.ssl ==> own == settings(l.key))
  }

  predicate Consistent<L>(s: Server<L>, protocol: ListenKey -> Protocol, settings: ListenKey -> TlsSettings) {
    forall j :: 0 <= j < |s.listens| ==> ListenFits(s.listens[j], s.settings, protocol, settings)
  }

  lemma AddListenAccepted<L>(r: Router, s: Server<L>, routes: Routes, l: Listen, protocol: ListenKey -> Protocol,
                             settings: ListenKey -> TlsSettings)
    requires Transports(r, protocol, settings) && ListenFits(l, s.settings, protocol, settings)
    ensures AddListen(r, s, routes, l).Ok?
  {
  }

  lemma TransportsStay(r: Router, key: ListenKey, p: Protocol, e: TlsSettings, t: Router,
                       protocol: ListenKey -> Protocol, settings: ListenKey -> TlsSettings)
    requires Transports(r, protocol, settings) && TransportStep(r, key, p, e, t) && p == protocol(key)
    requires (key.ssl ==> e == settings(key))
    ensures Transports(t, protocol, settings)
  {
  }

  function ListenKeys(listens: seq<Listen>): set<ListenKey> { set j | 0 <= j < |listens| :: listens[j].key }

  function Keys<L>(servers: seq<Server<L>>): set<ListenKey> {
    if servers == [] then {} else Keys(servers[..|servers| - 1]) + ListenKeys(servers[|servers| - 1].listens)
  }

  lemma {:induction false} KeysHave<L>(servers: seq<Server<L>>, i: nat, j: nat)
    requires i < |servers| && j < |servers[i].listens|
    ensures servers[i].listens[j].key in Keys(servers)
  {
    if i < |servers| - 1 { KeysHave(servers[..|servers| - 1], i, j); }
  }

  lemma {:induction false} KeyFrom<L>(servers: seq<Server<L>>, key: ListenKey) returns (i: nat, j: nat)
    requires key in Keys(servers)
    ensures i < |servers| && j < |servers[i].listens| && servers[i].listens[j].key == key
  {
    var n := |servers| - 1;
    if key in ListenKeys(servers[n].listens) {
      i := n;
      j :| 0 <= j < |servers[n].listens| && servers[n].listens[j].key == key;
    } else {
      i, j := KeyFrom(servers[..n], key);
    }
  }

  lemma ListenKeysFirst(listens: seq<Listen>)
    requires listens != []
    ensures ListenKeys(listens) == {listens[0].key} + ListenKeys(listens[1..])
  {
    forall k | k in ListenKeys(listens) ensures k in {listens[0].key} + ListenKeys(listens[1..]) {
      var j :| 0 <= j < |listens| && listens[j].key == k;
      if j > 0 { assert listens[1..][j - 1].key == k; }
    }
    forall k | k in ListenKeys(listens[1..]) ensures k in ListenKeys(listens) {
      var j :| 0 <= j < |listens[1..]| && listens[1..][j].key == k;
      assert listens[j + 1].key == k;
    }
  }

  lemma {:induction false} ListensAccepted<L>(r: Router, s: Server<L>, routes: Routes, listens: seq<Listen>,
                                              protocol: ListenKey -> Protocol, settings: ListenKey -> TlsSettings)
    requires Transports(r, protocol, settings)
    requires forall j :: 0 <= j < |listens| ==> ListenFits(listens[j], s.settings, protocol, settings)
    ensures AddListens(r, s, routes, listens).Ok?
    ensures Transports(AddListens(r, s, routes, listens).value, protocol, settings)
    ensures AddListens(r, s, routes, listens).value.listeners.Keys == r.listeners.Keys + ListenKeys(listens)
    decreases |listens|
  {
    if listens != [] {
      AddListenAccepted(r, s, routes, listens[0], protocol, settings);
      AddListenTransport(r, s, routes, listens[0]);
      var t := AddListen(r, s, routes, listens[0]).value;
      TransportsStay(r, listens[0].key, listens[0].protocol, s.settings, t, protocol, settings);
      ListensAccepted(t, s, routes, listens[1..], protocol, settings);
      ListenKeysFirst(listens);
    }
  }

  /** Blocks that agree on their listeners and compile on their own are accepted together. */
  lemma {:induction false} AcceptedTogether<L>(fe: Frontend<L>, b: Build, servers: seq<Server<L>>,
                                               protocol: ListenKey -> Protocol, settings: ListenKey -> TlsSettings)
    requires b.router.listeners == map[] && b.router.protocols == map[] && b.router.tls == map[]
    requires forall i :: 0 <= i < |servers| ==> Consistent(servers[i], protocol, settings)
    requires forall i, next :: 0 <= i < |servers| ==> ServerRoutes(fe, b.router, next, servers[i]).Ok?
    ensures AddServers(fe, b, servers).Ok?
    ensures Transports(AddServers(fe, b, servers).value.router, protocol, settings)
    ensures AddServers(fe, b, servers).value.router.listeners.Keys == Keys(servers)
  {
    if servers != [] {
      var front, s := servers[..|servers| - 1], servers[|servers| - 1];
      assert forall i :: 0 <= i < |front| ==> front[i] == servers[i];
      AcceptedTogether(fe, b, front, protocol, settings);
      var before := AddServers(fe, b, front).value;
      BuildKeepsSettings(fe, b, front);
      SameServerRoutes(fe, b.router, before.router, before.next, s);
      assert ServerRoutes(fe, b.router, before.next, servers[|front|]).Ok?;
      var routes := ServerRoutes(fe, before.router, before.next, s).value;
      ListensAccepted(before.router, s, routes, s.listens, protocol, settings);
    }
  }

  /** An accepted listen agrees with what its listener ended up with. */
  ghost predicate ListenAgrees(r: Router, l: Listen, own: TlsSettings) {
    && l.key in r.listeners && l.key in r.protocols && r.protocols[l.key] == l.protocol
    && (l.key.ssl ==> l.key in r.tls && r.tls[l.key].settings == own)
  }

  ghost predicate Agrees<L>(r: Router, s: Server<L>) {
    forall j :: 0 <= j < |s.listens| ==> ListenAgrees(r, s.listens[j], s.settings)
  }

  ghost predicate WellKeyed(r: Router) {
    r.protocols.Keys == r.listeners.Keys && (forall k :: k in r.tls <==> k in r.listeners && k.ssl)
  }

  /** What one listen does to protocols and certificates. */
  ghost predicate TransportStep(r: Router, key: ListenKey, protocol: Protocol, settings: TlsSettings, t: Router) {
    && t.protocols == r.protocols[key := protocol] && (key in r.protocols ==> r.protocols[key] == protocol)
    && t.listeners.Keys == r.listeners.Keys + {key}
    && (!key.ssl ==> t.tls == r.tls)
    && (key.ssl ==> key in t.tls && t.tls == r.tls[key := t.tls[key]] && t.tls[key].settings == settings)
    && (key.ssl && key in r.tls ==> r.tls[key].settings == settings)
  }

  lemma AddListenTransport<L>(r: Router, s: Server<L>, routes: Routes, l: Listen)
    requires AddListen(r, s, routes, l).Ok?
    ensures TransportStep(r, l.key, l.protocol, s.settings, AddListen(r, s, routes, l).value)
  {
  }

  lemma WellKeyedStays(r: Router, key: ListenKey, protocol: Protocol, settings: TlsSettings, t: Router)
    requires WellKeyed(r) && TransportStep(r, key, protocol, settings, t)
    ensures WellKeyed(t)
  {
  }

  lemma AgreementStays(r: Router, l: Listen, settings: TlsSettings, t: Router, o: Listen, own: TlsSettings)
    requires TransportStep(r, l.key, l.protocol, settings, t)
    requires ListenAgrees(r, o, own) || (o == l && own == settings)
    ensures ListenAgrees(t, o, own)
  {
  }

  /** What all listens of a block do: keys, and agreement of its own listens and of any earlier one. */
  lemma {:induction false} ListensKey<L>(r: Router, s: Server<L>, routes: Routes, listens: seq<Listen>)
    requires AddListens(r, s, routes, listens).Ok? && WellKeyed(r)
    ensures var t := AddListens(r, s, routes, listens).value;
            WellKeyed(t) && t.listeners.Keys == r.listeners.Keys + ListenKeys(listens)
    decreases |listens|
  {
    if listens != [] {
      var t := AddListen(r, s, routes, listens[0]).value;
      AddListenTransport(r, s, routes, listens[0]);
      WellKeyedStays(r, listens[0].key, listens[0].protocol, s.settings, t);
      ListensKey(t, s, routes, listens[1..]);
      ListenKeysFirst(listens);
    }
  }

  lemma {:induction false} ListensAgree<L>(r: Router, s: Server<L>, routes: Routes, listens: seq<Listen>, o: Listen,
                                           own: TlsSettings)
    requires AddListens(r, s, routes, listens).Ok? && (ListenAgrees(r, o, own) || (o in listens && own == s.settings))
    ensures ListenAgrees(AddListens(r, s, routes, listens).value, o, own)
    decreases |listens|
  {
    if listens != [] {
      var t := AddListen(r, s, routes, listens[0]).value;
      AddListenTransport(r, s, routes, listens[0]);
      if ListenAgrees(r, o, own) || o == listens[0] { AgreementStays(r, listens[0], s.settings, t, o, own); }
      ListensAgree(t, s, routes, listens[1..], o, own);
    }
  }

  lemma {:induction false} KeysAre<L>(fe: Frontend<L>, b: Build, servers: seq<Server<L>>, r: Router)
    requires b.router.listeners == map[] && b.router.protocols == map[] && b.router.tls == map[]
    requires AddServers(fe, b, servers).Ok? && r == AddServers(fe, b, servers).value.router
    ensures WellKeyed(r) && r.listeners.Keys == Keys(servers)
  {
    if servers != [] {
      var before, routes := LastBlock(fe, b, servers);
      KeysAre(fe, b, servers[..|servers| - 1], before.router);
      ListensKey(before.router, servers[|servers| - 1], routes, servers[|servers| - 1].listens);
    }
  }

  /** Every listen of every block agrees with what its listener ended up with. */
  lemma {:induction false} ListenEndsAgreed<L>(fe: Frontend<L>, b: Build, servers: seq<Server<L>>, r: Router, i: nat,
                                               j: nat)
    requires AddServers(fe, b, servers).Ok? && r == AddServers(fe, b, servers).value.router && i < |servers|
    requires j < |servers[i].listens|
    ensures ListenAgrees(r, servers[i].listens[j], servers[i].settings)
    decreases |servers|
  {
    var before, routes := LastBlock(fe, b, servers);
    if i < |servers| - 1 {
      ListenEndsAgreed(fe, b, servers[..|servers| - 1], before.router, i, j);
    }
    ListensAgree(before.router, servers[|servers| - 1], routes, servers[|servers| - 1].listens, servers[i].listens[j],
                 servers[i].settings);
  }

  lemma BlockAgrees<L>(fe: Frontend<L>, b: Build, servers: seq<Server<L>>, r: Router, i: nat)
    requires AddServers(fe, b, servers).Ok? && r == AddServers(fe, b, servers).value.router && i < |servers|
    ensures Agrees(r, servers[i])
  {
    forall j | 0 <= j < |servers[i].listens| ensures ListenAgrees(r, servers[i].listens[j], servers[i].settings) {
      ListenEndsAgreed(fe, b, servers, r, i, j);
    }
  }

  // ---- defaults ----

  /** Which routes end up as the default of a listener: the last block marked so, or else the first without names. */
  function DefaultRoutes<L>(servers: seq<Server<L>>, blocks: seq<Routes>, key: ListenKey): Option<Routes>
    requires |blocks| == |servers|
  {
    if servers == [] then None
    else
      var n, s := |servers| - 1, servers[|servers| - 1];
      NextDefault(DefaultRoutes(servers[..n], blocks[..n], key), s.listens, s.names, blocks[n], key)
  }

  function NextDefault(before: Option<Routes>, listens: seq<Listen>, names: seq<string>, block: Routes,
                       key: ListenKey): Option<Routes> {
    if ListedOn(listens, key) && (DefaultOn(listens, key) || (names == [] && before.None?)) then Some(block) else before
  }

  lemma DefaultFirst(listens: seq<Listen>, key: ListenKey)
    requires listens != []
    ensures ListedOn(listens, key) <==> listens[0].key == key || ListedOn(listens[1..], key)
    ensures DefaultOn(listens, key)
       <==> (listens[0].key == key && listens[0].defaultServer) || DefaultOn(listens[1..], key)
  {
    ListedFirst(listens, key);
    if DefaultOn(listens, key) {
      var i :| 0 <= i < |listens| && listens[i].key == key && listens[i].defaultServer;
      if i > 0 { assert listens[1..][i - 1] == listens[i]; }
    }
    if DefaultOn(listens[1..], key) {
      var i :| 0 <= i < |listens[1..]| && listens[1..][i].key == key && listens[1..][i].defaultServer;
      assert listens[i + 1] == listens[1..][i];
    }
  }

  lemma {:induction false} ListensDefault<L>(r: Router, s: Server<L>, routes: Routes, listens: seq<Listen>,
                                             key: ListenKey)
    requires AddListens(r, s, routes, listens).Ok?
    ensures HostsAt(AddListens(r, s, routes, listens).value, key).default
         == NextDefault(HostsAt(r, key).default, listens, s.names, routes, key)
    decreases |listens|
  {
    if listens != [] {
      AddListenIs(r, s, routes, listens[0]);
      ListensDefault(AddListen(r, s, routes, listens[0]).value, s, routes, listens[1..], key);
      DefaultFirst(listens, key);
    }
  }

  lemma {:induction false} DefaultIs<L>(fe: Frontend<L>, b: Build, servers: seq<Server<L>>, key: ListenKey)
    requires b.router.listeners == map[] && AddServers(fe, b, servers).Ok?
    ensures HostsAt(AddServers(fe, b, servers).value.router, key).default
         == DefaultRoutes(servers, Blocks(fe, b, servers), key)
  {
    if servers != [] {
      var front, s := servers[..|servers| - 1], servers[|servers| - 1];
      var before, routes := LastBlock(fe, b, servers);
      DefaultIs(fe, b, front, key);
      ListensDefault(before.router, s, routes, s.listens, key);
      assert Blocks(fe, b, servers)[..|front|] == Blocks(fe, b, front);
    }
  }

  /** Which certificate ends up as the fallback of a listener. */
  function DefaultCert<L>(servers: seq<Server<L>>, letsEncrypt: Option<LetsEncrypt>,
                          key: ListenKey): Option<TlsIdentity> {
    if servers == [] then None
    else
      var s := servers[|servers| - 1];
      NextFallback(DefaultCert(servers[..|servers| - 1], letsEncrypt, key), s.listens, s.names,
                   IdentityOf(s, letsEncrypt), key)
  }

  function NextFallback(before: Option<TlsIdentity>, listens: seq<Listen>, names: seq<string>,
                        identity: Option<TlsIdentity>, key: ListenKey): Option<TlsIdentity> {
    if ListedOn(listens, key) && identity.Some? && (DefaultOn(listens, key) || before.None? || names == [])
    then identity else before
  }

  function TlsDefault(r: Router, key: ListenKey): Option<TlsIdentity> {
    if key in r.tls then r.tls[key].default else None
  }

  lemma AddListenFallback<L>(r: Router, s: Server<L>, routes: Routes, l: Listen, key: ListenKey)
    requires AddListen(r, s, routes, l).Ok? && key.ssl
    ensures var identity := IdentityOf(s, r.letsEncrypt);
            TlsDefault(AddListen(r, s, routes, l).value, key)
            == if l.key == key && identity.Some? && (l.defaultServer || TlsDefault(r, key).None? || s.names == [])
            then identity else TlsDefault(r, key)
  {
  }

  lemma {:induction false} ListensFallback<L>(r: Router, s: Server<L>, routes: Routes, listens: seq<Listen>,
                                              key: ListenKey)
    requires AddListens(r, s, routes, listens).Ok? && key.ssl
    ensures TlsDefault(AddListens(r, s, routes, listens).value, key)
         == NextFallback(TlsDefault(r, key), listens, s.names, IdentityOf(s, r.letsEncrypt), key)
    decreases |listens|
  {
    if listens != [] {
      AddListenIs(r, s, routes, listens[0]);
      AddListenFallback(r, s, routes, listens[0], key);
      ListensFallback(AddListen(r, s, routes, listens[0]).value, s, routes, listens[1..], key);
      DefaultFirst(listens, key);
    }
  }

  lemma {:induction false} DefaultCertIs<L>(fe: Frontend<L>, b: Build, servers: seq<Server<L>>, key: ListenKey)
    requires b.router.tls == map[] && AddServers(fe, b, servers).Ok? && key.ssl
    ensures TlsDefault(AddServers(fe, b, servers).value.router, key) == DefaultCert(servers, b.router.letsEncrypt, key)
  {
    if servers != [] {
      var front, s := servers[..|servers| - 1], servers[|servers| - 1];
      var before, routes := LastBlock(fe, b, servers);
      DefaultCertIs(fe, b, front, key);
      BuildKeepsSettings(fe, b, front);
      ListensFallback(before.router, s, routes, s.listens, key);
    }
  }

  /** Block `d` is the only one on `key` marked as default there, and no other block there lacks names. */
  predicate OneDefault<L>(servers: seq<Server<L>>, key: ListenKey, d: nat) {
    && d < |servers| && ListedOn(servers[d].listens, key) && DefaultOn(servers[d].listens, key)
    && forall i :: 0 <= i < |servers| && i != d && ListedOn(servers[i].listens, key) ==> Ordinary(servers[i], key)
  }

  predicate Ordinary<L>(s: Server<L>, key: ListenKey) { !DefaultOn(s.listens, key) && s.names != [] }

  lemma {:induction false} OneDefaultWins<L>(servers: seq<Server<L>>, blocks: seq<Routes>,
                                             letsEncrypt: Option<LetsEncrypt>, key: ListenKey, d: nat)
    requires |blocks| == |servers| && OneDefault(servers, key, d)
    ensures DefaultRoutes(servers, blocks, key) == Some(blocks[d])
    ensures IdentityOf(servers[d], letsEncrypt).Some?
            ==> DefaultCert(servers, letsEncrypt, key) == IdentityOf(servers[d], letsEncrypt)
    decreases |servers|
  {
    var n := |servers| - 1;
    if d < n {
      assert OneDefault(servers[..n], key, d) by { assert forall i :: 0 <= i < n ==> servers[..n][i] == servers[i]; }
      OneDefaultWins(servers[..n], blocks[..n], letsEncrypt, key, d);
      assert ListedOn(servers[n].listens, key) ==> Ordinary(servers[n], key);
    }
  }

  lemma {:induction false} NoDefault<L>(servers: seq<Server<L>>, blocks: seq<Routes>, key: ListenKey)
    requires |blocks| == |servers|
    requires forall i :: 0 <= i < |servers| && ListedOn(servers[i].listens, key) ==> Ordinary(servers[i], key)
    ensures DefaultRoutes(servers, blocks, key) == None
    decreases |servers|
  {
    if servers != [] {
      var n := |servers| - 1;
      assert forall i :: 0 <= i < n ==> servers[..n][i] == servers[i];
      NoDefault(servers[..n], blocks[..n], key);
      assert ListedOn(servers[n].listens, key) ==> Ordinary(servers[n], key);
    }
  }

  lemma {:induction false} NoneListed<L>(servers: seq<Server<L>>, letsEncrypt: Option<LetsEncrypt>, key: ListenKey)
    requires forall i :: 0 <= i < |servers| ==> !ListedOn(servers[i].listens, key)
    ensures DefaultCert(servers, letsEncrypt, key) == None
  {
    if servers != [] { NoneListed(servers[..|servers| - 1], letsEncrypt, key); }
  }

  lemma FallbackStays(before: Option<TlsIdentity>, listens: seq<Listen>, names: seq<string>,
                      identity: Option<TlsIdentity>, key: ListenKey)
    requires before.Some? && (ListedOn(listens, key) ==> !DefaultOn(listens, key) && names != [])
    ensures NextFallback(before, listens, names, identity, key) == before
  {
  }

  lemma FallbackStarts(listens: seq<Listen>, names: seq<string>, identity: Option<TlsIdentity>, key: ListenKey)
    requires ListedOn(listens, key) && identity.Some?
    ensures NextFallback(None, listens, names, identity, key) == identity
  {
  }

  /** Block `d` is the first for the listener, and none for it is a default. */
  predicate LeadsOn<L>(servers: seq<Server<L>>, key: ListenKey, d: nat) {
    && d < |servers| && ListedOn(servers[d].listens, key)
    && (forall i :: 0 <= i < d ==> !ListedOn(servers[i].listens, key))
    && forall i :: 0 <= i < |servers| && ListedOn(servers[i].listens, key) ==> Ordinary(servers[i], key)
  }

  lemma LeadsFront<L>(servers: seq<Server<L>>, key: ListenKey, d: nat)
    requires LeadsOn(servers, key, d) && d < |servers| - 1
    ensures LeadsOn(servers[..|servers| - 1], key, d)
    ensures var s := servers[|servers| - 1]; ListedOn(s.listens, key) ==> !DefaultOn(s.listens, key) && s.names != []
  {
    var front := servers[..|servers| - 1];
    assert forall i :: 0 <= i < |front| ==> front[i] == servers[i];
    var s := servers[|servers| - 1];
    assert ListedOn(s.listens, key) ==> Ordinary(s, key);
  }

  lemma LeadsAlone<L>(servers: seq<Server<L>>, letsEncrypt: Option<LetsEncrypt>, key: ListenKey)
    requires servers != [] && LeadsOn(servers, key, |servers| - 1)
    ensures DefaultCert(servers[..|servers| - 1], letsEncrypt, key) == None
  {
    var front := servers[..|servers| - 1];
    assert forall i :: 0 <= i < |front| ==> front[i] == servers[i];
    NoneListed(front, letsEncrypt, key);
  }

  /** Where no block is the default, the first one for the listener provides the fallback certificate. */
  lemma {:induction false} FirstCertIs<L>(servers: seq<Server<L>>, letsEncrypt: Option<LetsEncrypt>, key: ListenKey,
                                          d: nat)
    requires LeadsOn(servers, key, d) && IdentityOf(servers[d], letsEncrypt).Some?
    ensures DefaultCert(servers, letsEncrypt, key) == IdentityOf(servers[d], letsEncrypt)
    decreases |servers|
  {
    var n := |servers| - 1;
    var s, before := servers[n], DefaultCert(servers[..n], letsEncrypt, key);
    var identity := IdentityOf(s, letsEncrypt);
    assert DefaultCert(servers, letsEncrypt, key) == NextFallback(before, s.listens, s.names, identity, key);
    if d < n {
      LeadsFront(servers, key, d);
      FirstCertIs(servers[..n], letsEncrypt, key, d);
      FallbackStays(before, s.listens, s.names, identity, key);
    } else {
      LeadsAlone(servers, letsEncrypt, key);
      FallbackStarts(s.listens, s.names, identity, key);
    }
  }
}

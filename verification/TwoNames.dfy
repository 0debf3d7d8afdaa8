/** Two server blocks for different names on one TLS listener. */
module TwoNames {
  import opened Common
  import opened Config
  import opened RouterBuild

  const NO_HTTP2 := Protocol(false, false)

  const NO_SETTINGS := TlsSettings(None, VerifyOff, None)

  /** A block without locations for one name. */
  function Block<L>(key: ListenKey, name: string, cert: TlsIdentity): Server<L> {
    Server([name], [], [Listen(key, false, NO_HTTP2)], Some(Custom(cert)), NO_SETTINGS)
  }

  predicate PlainName(name: string) { '*' !in name && Normalize(name) == name }

  lemma OneName<V>(m: map<string, V>, name: string, v: V)
    requires PlainName(name)
    ensures WithNames(m, [name], v) == m[name := v]
  {
    assert [name][0] == name && NameSet([name]) == {name};
  }

  lemma BlockCompiles<L>(fe: Frontend<L>, r: Router, next: nat, key: ListenKey, name: string, cert: TlsIdentity)
    requires PlainName(name)
    ensures ServerRoutes(fe, r, next, Block(key, name, cert)) == Ok([])
  {
    var s := Block<L>(key, name, cert);
    assert [name][1..] == [];
    assert NameError(s.names).None?;
    assert CompileLocations(fe, s.locations, r.upstreams, next) == Ok([]);
    assert ScpError(r, s, []).None?;
  }

  /** What one block makes of a listener's hosts and certificates. */
  function Added(r: Router, key: ListenKey, name: string, cert: TlsIdentity): Router {
    var hosts, tls := HostsAt(r, key), TlsAt(r, key, NO_SETTINGS);
    r.(protocols := r.protocols[key := NO_HTTP2],
    listeners := r.listeners[key := VirtualHosts(hosts.named[name := []], hosts.default)],
    tls := r.tls[key := ListenerTls(tls.named[name := cert], if tls.default.None? then Some(cert) else tls.default,
                                    NO_SETTINGS)])
  }

  lemma BlockAdded<L>(fe: Frontend<L>, b: Build, key: ListenKey, name: string, cert: TlsIdentity)
    requires PlainName(name) && key.ssl && (key in b.router.protocols ==> b.router.protocols[key] == NO_HTTP2)
    requires key in b.router.tls ==> b.router.tls[key].settings == NO_SETTINGS
    ensures AddServer(fe, b, Block(key, name, cert)) == Ok(Build(Added(b.router, key, name, cert), b.next))
  {
    var s := Block<L>(key, name, cert);
    BlockCompiles(fe, b.router, b.next, key, name, cert);
    OneName<Routes>(HostsAt(b.router, key).named, name, []);
    OneName(TlsAt(b.router, key, NO_SETTINGS).named, name, cert);
    assert s.listens[1..] == [];
    var t := Added(b.router, key, name, cert);
    assert AddListen(b.router, s, [], s.listens[0]) == Ok(t);
    assert AddListens(t, s, [], s.listens[1..]) == Ok(t);
    assert AddListens(b.router, s, [], s.listens) == Ok(t);
  }

  /** The listener serves both names and falls back on the certificate of the first block. */
  predicate ServesTwo(r: Router, key: ListenKey, first: string, second: string, one: TlsIdentity, two: TlsIdentity) {
    && r.listeners == map[key := VirtualHosts(map[first := [], second := []], None)]
    && r.tls == map[key := ListenerTls(map[first := one, second := two], Some(one), NO_SETTINGS)]
  }

  lemma AddedTwice(r: Router, key: ListenKey, first: string, second: string, one: TlsIdentity, two: TlsIdentity)
    requires r.listeners == map[] && r.tls == map[]
    ensures ServesTwo(Added(Added(r, key, first, one), key, second, two), key, first, second, one, two)
  {
    var t := Added(r, key, first, one);
    assert t.listeners[key].named == map[first := []] && t.tls[key].named == map[first := one];
  }

  lemma BlocksAdded<L>(fe: Frontend<L>, b: Build, key: ListenKey, first: string, second: string, one: TlsIdentity,
                       two: TlsIdentity)
    requires b.router.listeners == map[] && b.router.protocols == map[] && b.router.tls == map[]
    requires PlainName(first) && PlainName(second) && key.ssl
    ensures var done := AddServers(fe, b, [Block(key, first, one), Block(key, second, two)]);
            && done.Ok? && done.value.router.options == b.router.options
            && ServesTwo(done.value.router, key, first, second, one, two)
  {
    var s, t := Block<L>(key, first, one), Block<L>(key, second, two);
    assert [s, t][..1] == [s] && [s][..0] == [];
    assert AddServers(fe, b, []) == Ok(b);
    BlockAdded(fe, b, key, first, one);
    assert AddServers(fe, b, [s]) == Ok(Build(Added(b.router, key, first, one), b.next));
    BlockAdded(fe, Build(Added(b.router, key, first, one), b.next), key, second, two);
    AddedTwice(b.router, key, first, second, one, two);
  }

  lemma LowerIsPlain(s: string)
    requires s != [] && (forall i :: 0 <= i < |s| ==> s[i] == '.' || 'a' <= s[i] <= 'z') && s[|s| - 1] != '.'
    ensures PlainName(s)
  {
    assert Lower(s) == s;
  }
}

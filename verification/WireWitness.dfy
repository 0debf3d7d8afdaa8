/** Two blocks on one TLS listener: a snapshot whose fallback certificate an export may lose. */
module WireWitness {
  import opened Common
  import opened Config
  import opened Ordering
  import opened RouterBuild
  import opened RouterFacts
  import opened TwoNames
  import opened WireRoute
  import opened WireParts
  import opened WireSnapshot
  import opened WireExport
  import opened WireFallback

  function TwoBlocks(x: Syntax, addr: IpAddr, first: string, second: string, one: TlsIdentity, two: TlsIdentity): Wire {
    Wire(None, [WireListener(ListenerName(0), x.showIp(addr), 443, true, false, false, None)],
         [WireVhost(ListenerName(0), [first], false, Some(WireBindingOf(one)), []),
          WireVhost(ListenerName(0), [second], false, Some(WireBindingOf(two)), [])], [], None, [], None)
  }

  function KeyFor(addr: IpAddr): ListenKey { ListenKey(addr, 443, true) }

  lemma DefRead(x: Syntax, addr: IpAddr)
    requires Faithful(x)
    ensures var l := WireListener(ListenerName(0), x.showIp(addr), 443, true, false, false, None);
            DefsOf(x, [l]) == Some(map[ListenerName(0) := Def(KeyFor(addr), NO_HTTP2, NO_SETTINGS)])
  {
    var l := WireListener(ListenerName(0), x.showIp(addr), 443, true, false, false, None);
    ListenerNameTrimmed(0);
    assert [l][..0] == [];
    assert DefOf(x, l) == Some(Def(KeyFor(addr), NO_HTTP2, NO_SETTINGS));
  }

  lemma ServersRead(x: Syntax, addr: IpAddr, first: string, second: string, one: TlsIdentity, two: TlsIdentity)
    requires Faithful(x)
    ensures var w := TwoBlocks(x, addr, first, second, one, two);
            var f := FrameOf(x, w);
            && f.Some? && f.value.build.router.listeners == map[] && f.value.build.router.protocols == map[]
            && f.value.build.router.tls == map[] && f.value.build.router.options == OptionsOf(x, None).value
            && Servers(x, w) == Some([Block(KeyFor(addr), first, one), Block(KeyFor(addr), second, two)])
  {
    DefRead(x, addr);
    var w := TwoBlocks(x, addr, first, second, one, two);
    var defs := map[ListenerName(0) := Def(KeyFor(addr), NO_HTTP2, NO_SETTINGS)];
    var servers := [Block(KeyFor(addr), first, one), Block(KeyFor(addr), second, two)];
    assert forall i :: 0 <= i < 2 ==> Vhosts(defs)(w.vhosts[i]) == Some(servers[i]);
    EachIs(Vhosts(defs), w.vhosts, servers);
  }

  lemma EmptyIsStable(r: Router, key: ListenKey, first: string, second: string, one: TlsIdentity, two: TlsIdentity)
    requires ServesTwo(r, key, first, second, one, two)
    ensures StableRouter(r)
  {
  }

  lemma TwoBlocksAccepted(x: Syntax, addr: IpAddr, first: string, second: string, one: TlsIdentity, two: TlsIdentity)
    returns (r: Router)
    requires Faithful(x) && PlainName(first) && PlainName(second)
    ensures Accept(x, TwoBlocks(x, addr, first, second, one, two)) == Some(r)
    ensures ServesTwo(r, KeyFor(addr), first, second, one, two) && StableRouter(r)
  {
    var w := TwoBlocks(x, addr, first, second, one, two);
    ServersRead(x, addr, first, second, one, two);
    var b, servers := FrameOf(x, w).value.build, Servers(x, w).value;
    BlocksAdded(WireFrontend(x), b, KeyFor(addr), first, second, one, two);
    r := AddServers(WireFrontend(x), b, servers).value.router;
    AcceptFrom(x, w, b, servers, r);
    EmptyIsStable(r, KeyFor(addr), first, second, one, two);
  }

  // ---- and back ----

  lemma LeastOfTwo(first: string, second: string, n: string)
    requires first != second && IsLeast(n, {first, second})
    ensures n == first <==> Upto(first, second)
  {
    if n == second && Upto(first, second) { UptoBoth(first, second); }
  }

  lemma FallbackOfTwo(r: Router, key: ListenKey, first: string, second: string, one: TlsIdentity, two: TlsIdentity)
    requires first != second && ServesTwo(r, key, first, second, one, two)
    ensures FallbacksLeast(r) <==> Upto(first, second) || one == two
  {
    var hosts, tls := r.listeners[key], r.tls[key];
    assert hosts.named.Keys == {first, second};
    var n := LeastExists(hosts.named.Keys);
    LeastOfTwo(first, second, n);
    forall m | IsLeast(m, hosts.named.Keys) ensures m == n { LeastUnique(m, n, hosts.named.Keys); }
    assert LeastIsFallback(hosts, tls) <==> Some(tls.named[n]) == tls.default;
    assert FallbacksLeast(r) <==> LeastIsFallback(hosts, tls);
  }

  /**
    * Two names on one TLS listener, without default: the sorted export is read back with the same fallback
    * certificate exactly when the names came in order or share their certificate.
    */
  lemma TwoBlocksRoundTrip(x: Syntax, addr: IpAddr, first: string, second: string, one: TlsIdentity, two: TlsIdentity,
                           e: Export) returns (r: Router)
    requires Faithful(x) && PlainName(first) && PlainName(second) && first != second
    ensures Accept(x, TwoBlocks(x, addr, first, second, one, two)) == Some(r) && StableRouter(r)
    ensures Exports(x, r, e) && LeastLeads(r, e) ==>
              (ReadsBackFully(x, r, e.wire) <==> Upto(first, second) || one == two)
  {
    r := TwoBlocksAccepted(x, addr, first, second, one, two);
    FallbackOfTwo(r, KeyFor(addr), first, second, one, two);
    if Exports(x, r, e) && LeastLeads(r, e) {
      SortedRoundTripExactly(x, TwoBlocks(x, addr, first, second, one, two), r, e);
    }
  }

  /** `b.example` before `a.example`: accepted, and every sorted export is read back with another fallback. */
  lemma FallbackMoves(x: Syntax, addr: IpAddr, one: TlsIdentity, two: TlsIdentity, e: Export) returns (r: Router)
    requires Faithful(x) && one != two
    ensures Accept(x, TwoBlocks(x, addr, "b.example", "a.example", one, two)) == Some(r) && StableRouter(r)
    ensures Exports(x, r, e) && LeastLeads(r, e) ==> !ReadsBackFully(x, r, e.wire)
  {
    var b, a := "b.example", "a.example";
    LowerIsPlain(b);
    LowerIsPlain(a);
    assert b[0] == 'b' && a[0] == 'a';
    r := TwoBlocksRoundTrip(x, addr, b, a, one, two, e);
  }
}

/** The fallback certificate of a TLS listener without default host: the one thing a round trip may still change. */
module WireFallback {
  import opened Common
  import opened Config
  import opened WireRoute
  import opened WireParts
  import opened WireSnapshot
  import opened WireExport
  import opened RouterBuild
  import opened RouterFacts
  import opened Ordering

  /** The first virtual host of listener `i`, if there is one. */
  function FirstAt(at: seq<nat>, i: nat): nat {
    if at == [] || at[0] == i then 0 else FirstAt(at[1..], i) + 1
  }

  lemma {:induction false} FirstAtIs(at: seq<nat>, i: nat, j: nat)
    requires j < |at| && at[j] == i
    ensures FirstAt(at, i) <= j && at[FirstAt(at, i)] == i && forall k :: 0 <= k < FirstAt(at, i) ==> at[k] != i
  {
    if at[0] != i {
      FirstAtIs(at[1..], i, j - 1);
      forall k | 0 <= k < FirstAt(at, i) ensures at[k] != i { if k > 0 { assert at[k] == at[1..][k - 1]; } }
    }
  }

  lemma {:induction false} FirstAtFront(at: seq<nat>, more: seq<nat>, i: nat)
    requires FirstAt(at, i) < |at|
    ensures FirstAt(at + more, i) == FirstAt(at, i)
  {
    if at[0] != i {
      assert (at + more)[1..] == at[1..] + more;
      FirstAtFront(at[1..], more, i);
    }
  }

  lemma {:induction false} FirstAtBack(at: seq<nat>, more: seq<nat>, i: nat)
    requires i !in at && more != [] && more[0] == i
    ensures FirstAt(at + more, i) == |at|
  {
    if at == [] {
      assert at + more == more;
    } else {
      assert (at + more)[1..] == at[1..] + more;
      FirstAtBack(at[1..], more, i);
    }
  }

  /** The first virtual host of listener `i` has this name. */
  predicate Leads(vs: seq<WireVhost>, at: seq<nat>, i: nat, n: string) {
    var j := FirstAt(at, i);
    j < |at| && j < |vs| && n in vs[j].names
  }

  /** On every listener the least name is exported first. */
  ghost predicate LeastLeads(r: Router, e: Export) {
    forall i, n :: 0 <= i < |e.order| && e.order[i] in r.listeners && IsLeast(n, r.listeners[e.order[i]].named.Keys) ==>
                     Leads(e.wire.vhosts, e.at, i, n)
  }

  /** The first exported virtual host of listener `i` carries this certificate. */
  predicate FirstCarries(e: Export, i: nat, identity: Option<TlsIdentity>) {
    var j := FirstAt(e.at, i);
    j < |e.at| && j < |e.wire.vhosts| && e.wire.vhosts[j].tls == Binding(identity)
  }

  /** On every TLS listener without default host, the fallback is the certificate exported first. */
  predicate FallbacksKept(r: Router, e: Export) {
    forall i :: 0 <= i < |e.order| && e.order[i] in r.listeners && r.listeners[e.order[i]].default.None?
                && e.order[i] in r.tls ==>
                  FirstCarries(e, i, r.tls[e.order[i]].default)
  }

  ghost predicate SameFallbacks(r: Router, again: Router) {
    forall k :: k in r.tls && k in again.tls ==> again.tls[k].default == r.tls[k].default
  }

  /** Reading `w` gives a router that does what `r` does, fallback certificates included. */
  ghost predicate ReadsBackFully(x: Syntax, r: Router, w: Wire) {
    exists again :: Accept(x, w) == Some(again) && SameRouter(r, again) && SameFallbacks(r, again)
  }

  lemma BindingDiffers(a: Option<TlsIdentity>, b: Option<TlsIdentity>)
    requires Binding(a) == Binding(b)
    ensures a == b
  {
  }

  lemma AllOrdinary(x: Syntax, r: Router, e: Export, servers: seq<Server<WireRoute>>, routes: seq<Routes>,
                    ids: seq<Option<TlsIdentity>>, i: nat)
    requires Reading(x, r, e, servers, routes, ids) && i < |e.order| && e.order[i] in r.listeners
    requires r.listeners[e.order[i]].default.None?
    requires HostsExported(x, e.wire.vhosts, e.at, i, r.listeners[e.order[i]], TlsOption(r, e.order[i]))
    ensures forall j :: 0 <= j < |servers| && ListedOn(servers[j].listens, e.order[i]) ==>
                          Ordinary(servers[j], e.order[i])
  {
    forall j | 0 <= j < |servers| && ListedOn(servers[j].listens, e.order[i]) ensures Ordinary(servers[j], e.order[i]) {
      KeyOfBlock(x, r, e, servers, routes, ids, j, i);
    }
  }

  /** Read again, such a listener falls back on the certificate exported first. */
  lemma FallbackAgain(x: Syntax, r: Router, e: Export, servers: seq<Server<WireRoute>>, routes: seq<Routes>,
                      ids: seq<Option<TlsIdentity>>, again: Router, i: nat)
    requires Reading(x, r, e, servers, routes, ids) && Again(x, r, servers, again) && i < |e.order| && e.order[i].ssl
    requires e.order[i] in r.listeners && HasHosts(r.listeners[e.order[i]]) && r.listeners[e.order[i]].default.None?
    requires HostsExported(x, e.wire.vhosts, e.at, i, r.listeners[e.order[i]], TlsOption(r, e.order[i]))
    ensures FirstCarries(e, i, TlsDefault(again, e.order[i]))
  {
    var key := e.order[i];
    var some := SomeVhost(x, e.wire.vhosts, e.at, i, r.listeners[key], TlsOption(r, key));
    FirstAtIs(e.at, i, some);
    var d := FirstAt(e.at, i);
    CertifiedAgain(x, r, e, servers, routes, ids, i);
    CertsFollow(x, r, servers, again, key);
    KeyOfBlock(x, r, e, servers, routes, ids, d, i);
    forall j | 0 <= j < d ensures !ListedOn(servers[j].listens, key) {
      KeyOfBlock(x, r, e, servers, routes, ids, j, i);
    }
    AllOrdinary(x, r, e, servers, routes, ids, i);
    assert ReadAs(x, r, e.order[e.at[d]], e.wire.vhosts[d], servers[d], routes[d], ids[d]);
    FirstCertIs(servers, r.letsEncrypt, key, d);
  }

  lemma FallbackAt(x: Syntax, r: Router, e: Export, again: Router, i: nat)
    requires Faithful(x) && RouterOk(x, r) && Exports(x, r, e) && Accept(x, e.wire) == Some(again) && i < |e.order|
    ensures e.order[i] in r.listeners
    ensures e.order[i].ssl && r.listeners[e.order[i]].default.None?
            ==> FirstCarries(e, i, TlsDefault(again, e.order[i]))
  {
    var servers, routes, ids := AcceptedServers(x, r, e, again);
    ExportAt(x, r, e, i);
    if e.order[i].ssl && r.listeners[e.order[i]].default.None? {
      FallbackAgain(x, r, e, servers, routes, ids, again, i);
    }
  }

  lemma KeptFallbacks(r: Router, e: Export, again: Router)
    requires Lists(e.order, r.listeners.Keys) && WellKeyed(r) && SameRouter(r, again)
    requires forall i :: 0 <= i < |e.order| && e.order[i].ssl && r.listeners[e.order[i]].default.None? ==>
                           FirstCarries(e, i, TlsDefault(again, e.order[i]))
    ensures SameFallbacks(r, again) <==> FallbacksKept(r, e)
  {
    if FallbacksKept(r, e) {
      forall k | k in r.tls && k in again.tls ensures again.tls[k].default == r.tls[k].default {
        var i :| 0 <= i < |e.order| && e.order[i] == k;
        assert SameListener(r, again, k);
        if r.listeners[k].default.None? { BindingDiffers(again.tls[k].default, r.tls[k].default); }
      }
    }
    if SameFallbacks(r, again) {
      forall i | 0 <= i < |e.order| && r.listeners[e.order[i]].default.None? && e.order[i] in r.tls
        ensures FirstCarries(e, i, r.tls[e.order[i]].default)
      {
        assert SameListener(r, again, e.order[i]);
      }
    }
  }

  /**
    * Whatever is read back as the same router has the same fallback certificates exactly when they were
    * exported first.
    */
  lemma FallbacksExactly(x: Syntax, r: Router, e: Export, again: Router)
    requires Faithful(x) && RouterOk(x, r) && Exports(x, r, e) && Accept(x, e.wire) == Some(again)
    requires SameRouter(r, again)
    ensures SameFallbacks(r, again) <==> FallbacksKept(r, e)
  {
    forall i | 0 <= i < |e.order| && e.order[i].ssl && r.listeners[e.order[i]].default.None?
      ensures FirstCarries(e, i, TlsDefault(again, e.order[i]))
    {
      FallbackAt(x, r, e, again, i);
    }
    KeptFallbacks(r, e, again);
  }

  /**
    * The export of an accepted snapshot is read back as the same router, fallback certificates included,
    * exactly when the router is stable and every listener without default host exports its fallback first.
    */
  lemma FullRoundTripExactly(x: Syntax, w: Wire, r: Router, e: Export)
    requires Faithful(x) && Accept(x, w) == Some(r) && Exports(x, r, e)
    ensures ReadsBackFully(x, r, e.wire) <==> StableRouter(r) && FallbacksKept(r, e)
  {
    AcceptedIsOk(x, w);
    if StableRouter(r) && FallbacksKept(r, e) {
      var again := OkRoundTrip(x, r, e);
      FallbacksExactly(x, r, e, again);
    }
    if again :| Accept(x, e.wire) == Some(again) && SameRouter(r, again) && SameFallbacks(r, again) {
      OkNeedsStability(x, r, e, again);
      FallbacksExactly(x, r, e, again);
    }
  }

  // ---- the same condition on the router ----

  /** The certificate of the least name, where there are names, is the fallback. */
  ghost predicate LeastIsFallback(hosts: VirtualHosts, tls: ListenerTls) {
    forall n :: IsLeast(n, hosts.named.Keys) && n in tls.named ==> Some(tls.named[n]) == tls.default
  }

  /** On every TLS listener without default host. */
  ghost predicate FallbacksLeast(r: Router) {
    forall k :: k in r.listeners && k in r.tls && r.listeners[k].default.None? ==>
                  LeastIsFallback(r.listeners[k], r.tls[k])
  }

  lemma LeaderCarries(x: Syntax, e: Export, i: nat, hosts: VirtualHosts, tls: ListenerTls, n: string)
    requires |e.at| == |e.wire.vhosts| && HostsExported(x, e.wire.vhosts, e.at, i, hosts, Some(tls))
    requires Leads(e.wire.vhosts, e.at, i, n) && n in tls.named
             && (FirstAt(e.at, i) < |e.at| ==> e.at[FirstAt(e.at, i)] == i)
    ensures FirstCarries(e, i, tls.default) <==> Some(tls.named[n]) == tls.default
  {
    ExportedName(x, e.wire.vhosts, e.at, i, hosts, Some(tls), FirstAt(e.at, i), n);
    if FirstCarries(e, i, tls.default) { BindingDiffers(Some(tls.named[n]), tls.default); }
  }

  lemma {:induction false} FirstAtHas(at: seq<nat>, i: nat)
    requires FirstAt(at, i) < |at|
    ensures at[FirstAt(at, i)] == i
  {
    if at[0] != i { FirstAtHas(at[1..], i); }
  }

  lemma ListenerLeast(x: Syntax, r: Router, e: Export, i: nat)
    requires RouterOk(x, r) && VhostsExported(x, r, e) && LeastLeads(r, e) && i < |e.order|
    ensures e.order[i] in r.listeners
    ensures e.order[i] in r.tls && r.listeners[e.order[i]].default.None? ==>
              (FirstCarries(e, i, r.tls[e.order[i]].default)
               <==> LeastIsFallback(r.listeners[e.order[i]], r.tls[e.order[i]]))
  {
    ExportAt(x, r, e, i);
    var hosts := r.listeners[e.order[i]];
    if e.order[i] in r.tls && hosts.default.None? {
      var n := LeastExists(hosts.named.Keys);
      assert Leads(e.wire.vhosts, e.at, i, n);
      FirstAtHas(e.at, i);
      LeaderCarries(x, e, i, hosts, r.tls[e.order[i]], n);
      forall m | IsLeast(m, hosts.named.Keys) ensures m == n { LeastUnique(m, n, hosts.named.Keys); }
    }
  }

  lemma KeptExactlyLeast(x: Syntax, r: Router, e: Export)
    requires RouterOk(x, r) && VhostsExported(x, r, e) && LeastLeads(r, e)
    ensures FallbacksKept(r, e) <==> FallbacksLeast(r)
  {
    forall i | 0 <= i < |e.order|
      ensures e.order[i] in r.listeners
      ensures e.order[i] in r.tls && r.listeners[e.order[i]].default.None? ==>
                (FirstCarries(e, i, r.tls[e.order[i]].default)
                 <==> LeastIsFallback(r.listeners[e.order[i]], r.tls[e.order[i]]))
    {
      ListenerLeast(x, r, e, i);
    }
    KeptInOrder(r, e);
  }

  lemma KeptInOrder(r: Router, e: Export)
    requires Lists(e.order, r.listeners.Keys)
    requires forall i :: 0 <= i < |e.order| && e.order[i] in r.tls && r.listeners[e.order[i]].default.None? ==>
                           (FirstCarries(e, i, r.tls[e.order[i]].default)
                            <==> LeastIsFallback(r.listeners[e.order[i]], r.tls[e.order[i]]))
    ensures FallbacksKept(r, e) <==> FallbacksLeast(r)
  {
    if FallbacksKept(r, e) {
      forall k | k in r.listeners && k in r.tls && r.listeners[k].default.None?
        ensures LeastIsFallback(r.listeners[k], r.tls[k])
      {
        var i :| 0 <= i < |e.order| && e.order[i] == k;
      }
    }
  }

  /**
    * The sorted export of an accepted snapshot is read back as the same router, fallback certificates
    * included, exactly when the router is stable and on every TLS listener without default host the
    * certificate of the least name is the fallback.
    */
  lemma SortedRoundTripExactly(x: Syntax, w: Wire, r: Router, e: Export)
    requires Faithful(x) && Accept(x, w) == Some(r) && Exports(x, r, e) && LeastLeads(r, e)
    ensures ReadsBackFully(x, r, e.wire) <==> StableRouter(r) && FallbacksLeast(r)
  {
    FullRoundTripExactly(x, w, r, e);
    AcceptedIsOk(x, w);
    KeptExactlyLeast(x, r, e);
  }
}

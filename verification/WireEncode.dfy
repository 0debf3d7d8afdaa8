/** The exporter itself: virtual hosts are rebuilt from the router, merging names that agree. */
module WireEncode {
  import opened Common
  import opened Config
  import opened WireRoute
  import opened WireParts
  import opened WireSnapshot
  import opened WireExport
  import opened WireFallback
  import opened Ordering

  predicate Agreeing(v: WireVhost, listener: string, default: bool, routes: seq<WireRoute>, tls: Option<WireBinding>) {
    v.listener == listener && v.default == default && v.tls == tls && v.routes == routes
  }

  /** The names done so far are spread over non-default virtual hosts that stand for them. */
  ghost predicate NamesExported(x: Syntax, vs: seq<WireVhost>, listener: string, names: seq<string>,
                                hosts: VirtualHosts, tls: Option<ListenerTls>) {
    && (forall j :: 0 <= j < |vs| ==> vs[j].listener == listener && !vs[j].default && vs[j].names != [])
    && (forall n :: n in names ==> exists j :: 0 <= j < |vs| && n in vs[j].names)
    && (forall j, n :: 0 <= j < |vs| && n in vs[j].names ==>
                         n in hosts.named && vs[j].routes == ExportRoutes(x, hosts.named[n])
                         && vs[j].tls == NameBinding(tls, n))
  }

  /** Names are among those done and in order, and the first name done is in the first virtual host. */
  ghost predicate Tidy(vs: seq<WireVhost>, names: seq<string>) {
    && (forall j, n :: 0 <= j < |vs| && n in vs[j].names ==> n in names)
    && (forall j :: 0 <= j < |vs| ==> Ascending(vs[j].names, Upto))
    && (names != [] ==> vs != [] && names[0] in vs[0].names)
  }

  lemma TidyMerged(vs: seq<WireVhost>, names: seq<string>, host: string, j: nat)
    requires Tidy(vs, names) && Ascending(names + [host], Upto) && j < |vs|
    requires vs[j].names != []
    ensures Tidy(vs[j := vs[j].(names := vs[j].names + [host])], names + [host])
  {
    AppendAscends(vs[j].names, names, host);
    assert vs[j].names[0] in names;
    assert (names + [host])[0] == names[0];
  }

  lemma TidyPushed(vs: seq<WireVhost>, names: seq<string>, v: WireVhost, host: string)
    requires Tidy(vs, names) && v.names == [host] && (names == [] ==> vs == [])
    ensures Tidy(vs + [v], names + [host])
  {
  }

  /** No two virtual hosts could have been one. */
  predicate Merged(vs: seq<WireVhost>) {
    forall j, k :: 0 <= j < k < |vs| ==> vs[j].routes != vs[k].routes || vs[j].tls != vs[k].tls
  }

  lemma NameMerged(x: Syntax, vs: seq<WireVhost>, listener: string, names: seq<string>, hosts: VirtualHosts,
                   tls: Option<ListenerTls>, host: string, j: nat)
    requires NamesExported(x, vs, listener, names, hosts, tls) && host in hosts.named && j < |vs|
    requires Agreeing(vs[j], listener, false, ExportRoutes(x, hosts.named[host]), NameBinding(tls, host))
    ensures NamesExported(x, vs[j := vs[j].(names := vs[j].names + [host])], listener, names + [host], hosts, tls)
  {
    var us := vs[j := vs[j].(names := vs[j].names + [host])];
    forall n | n in names + [host] ensures exists k :: 0 <= k < |us| && n in us[k].names {
      if n == host {
        assert n in us[j].names;
      } else {
        var k :| 0 <= k < |vs| && n in vs[k].names;
        assert n in us[k].names;
      }
    }
  }

  lemma NamePushed(x: Syntax, vs: seq<WireVhost>, listener: string, names: seq<string>, hosts: VirtualHosts,
                   tls: Option<ListenerTls>, host: string)
    requires NamesExported(x, vs, listener, names, hosts, tls) && host in hosts.named
    ensures NamesExported(x, vs + [WireVhost(listener, [host], false, NameBinding(tls, host),
                                             ExportRoutes(x, hosts.named[host]))], listener, names + [host], hosts, tls)
  {
    var us := vs + [WireVhost(listener, [host], false, NameBinding(tls, host), ExportRoutes(x, hosts.named[host]))];
    forall n | n in names + [host] ensures exists k :: 0 <= k < |us| && n in us[k].names {
      if n == host {
        assert n in us[|vs|].names;
      } else {
        var k :| 0 <= k < |vs| && n in vs[k].names;
        assert n in us[k].names;
      }
    }
  }

  /** The first virtual host that agrees, if any. */
  method Find(vs: seq<WireVhost>, listener: string, default: bool, routes: seq<WireRoute>, tls: Option<WireBinding>)
    returns (found: Option<nat>)
    ensures found.Some? ==> found.value < |vs| && Agreeing(vs[found.value], listener, default, routes, tls)
    ensures found.Some? ==> forall j :: 0 <= j < found.value ==> !Agreeing(vs[j], listener, default, routes, tls)
    ensures found.None? ==> forall j :: 0 <= j < |vs| ==> !Agreeing(vs[j], listener, default, routes, tls)
  {
    for j := 0 to |vs|
      invariant forall k :: 0 <= k < j ==> !Agreeing(vs[k], listener, default, routes, tls)
    {
      if Agreeing(vs[j], listener, default, routes, tls) {
        return Some(j);
      }
    }
    return None;
  }

  /** What the loop over the names keeps. */
  ghost predicate NamesDone(x: Syntax, vs: seq<WireVhost>, listener: string, names: seq<string>, hosts: VirtualHosts,
                            tls: Option<ListenerTls>) {
    && NamesExported(x, vs, listener, names, hosts, tls) && Merged(vs) && Tidy(vs, names)
    && (names == [] ==> vs == [])
  }

  /** One more name: into the first virtual host that agrees, or a virtual host of its own. */
  method MergeOrPush(x: Syntax, vs: seq<WireVhost>, listener: string, host: string, hosts: VirtualHosts,
                     tls: Option<ListenerTls>, ghost names: seq<string>)
    returns (out: seq<WireVhost>)
    requires NamesDone(x, vs, listener, names, hosts, tls)
    requires host in hosts.named && Ascending(names + [host], Upto)
    ensures NamesDone(x, out, listener, names + [host], hosts, tls)
  {
    var routes, binding := ExportRoutes(x, hosts.named[host]), NameBinding(tls, host);
    var found := Find(vs, listener, false, routes, binding);
    if found.Some? {
      NameMerged(x, vs, listener, names, hosts, tls, host, found.value);
      TidyMerged(vs, names, host, found.value);
      // In order already, so the sort that follows in the source leaves the list alone.
      out := vs[found.value := vs[found.value].(names := vs[found.value].names + [host])];
    } else {
      NamePushed(x, vs, listener, names, hosts, tls, host);
      TidyPushed(vs, names, WireVhost(listener, [host], false, binding, routes), host);
      out := vs + [WireVhost(listener, [host], false, binding, routes)];
    }
  }

  function Const(n: nat, i: nat): seq<nat> { seq(n, _ => i) }

  lemma NamesAreHosts(x: Syntax, vs: seq<WireVhost>, listener: string, names: seq<string>, hosts: VirtualHosts,
                      tls: Option<ListenerTls>, i: nat)
    requires NamesExported(x, vs, listener, names, hosts, tls) && Lists(names, hosts.named.Keys) && hosts.default.None?
    ensures HostsExported(x, vs, Const(|vs|, i), i, hosts, tls)
  {
    forall n | n in hosts.named ensures exists j :: 0 <= j < |vs| && Const(|vs|, i)[j] == i && n in vs[j].names {
      var j :| 0 <= j < |vs| && n in vs[j].names;
      assert Const(|vs|, i)[j] == i;
    }
  }

  /** `us` is `vs` with virtual host `d` made the default; it has no names if it is new. */
  predicate Marks(vs: seq<WireVhost>, us: seq<WireVhost>, d: nat) {
    && |vs| <= |us| && d < |us| && us[d].default && (d >= |vs| ==> us[d].names == [])
    && (forall j :: 0 <= j < |us| && j != d ==> j < |vs| && us[j].default == vs[j].default)
    && (forall j :: 0 <= j < |vs| ==> us[j] == vs[j].(default := us[j].default))
  }

  lemma TidyMarked(vs: seq<WireVhost>, us: seq<WireVhost>, d: nat, names: seq<string>)
    requires Marks(vs, us, d) && Tidy(vs, names)
    ensures Tidy(us, names)
  {
    forall j | 0 <= j < |us|
      ensures Ascending(us[j].names, Upto) && forall n :: n in us[j].names ==> n in names
    {
      if j < |vs| { assert us[j].names == vs[j].names; }
    }
  }

  lemma MergedMarked(vs: seq<WireVhost>, us: seq<WireVhost>, d: nat)
    requires Marks(vs, us, d) && Merged(vs)
    requires d >= |vs| ==> forall j :: 0 <= j < |vs| ==> vs[j].routes != us[d].routes || vs[j].tls != us[d].tls
    ensures Merged(us)
  {
  }

  lemma MarkedIsDefault(x: Syntax, vs: seq<WireVhost>, us: seq<WireVhost>, routes: Routes, tls: Option<ListenerTls>,
                        i: nat, d: nat)
    requires Marks(vs, us, d) && (forall j :: 0 <= j < |vs| ==> !vs[j].default)
    requires us[d].routes == ExportRoutes(x, routes) && us[d].tls == DefaultBinding(tls)
    ensures DefaultExported(x, us, Const(|us|, i), i, routes, tls, d)
  {
  }

  lemma NameMarked(vs: seq<WireVhost>, us: seq<WireVhost>, d: nat, i: nat, n: string)
    requires Marks(vs, us, d) && exists j :: 0 <= j < |vs| && n in vs[j].names
    ensures exists j :: 0 <= j < |us| && Const(|us|, i)[j] == i && n in us[j].names
  {
    var j :| 0 <= j < |vs| && n in vs[j].names;
    assert Const(|us|, i)[j] == i && us[j].names == vs[j].names;
  }

  lemma DefaultMarked(x: Syntax, vs: seq<WireVhost>, us: seq<WireVhost>, listener: string, names: seq<string>,
                      hosts: VirtualHosts, tls: Option<ListenerTls>, i: nat, d: nat)
    requires NamesExported(x, vs, listener, names, hosts, tls) && Lists(names, hosts.named.Keys) && hosts.default.Some?
    requires Marks(vs, us, d) && us[d].routes == ExportRoutes(x, hosts.default.value)
             && us[d].tls == DefaultBinding(tls)
    ensures HostsExported(x, us, Const(|us|, i), i, hosts, tls)
  {
    forall n | n in hosts.named ensures exists j :: 0 <= j < |us| && Const(|us|, i)[j] == i && n in us[j].names {
      NameMarked(vs, us, d, i, n);
    }
    forall j, n | 0 <= j < |us| && n in us[j].names
      ensures j < |vs| && n in vs[j].names && us[j].routes == vs[j].routes && us[j].tls == vs[j].tls
    {
    }
    MarkedIsDefault(x, vs, us, hosts.default.value, tls, i, d);
  }

  lemma AscendingFront(names: seq<string>, k: nat)
    requires k < |names| && Ascending(names, Upto)
    ensures names[..k] + [names[k]] == names[..k + 1] && Ascending(names[..k] + [names[k]], Upto)
  {
  }

  /** The loop over the sorted names. */
  method ExportNames(x: Syntax, listener: string, hosts: VirtualHosts, tls: Option<ListenerTls>, names: seq<string>)
    returns (vs: seq<WireVhost>)
    requires Lists(names, hosts.named.Keys) && Ascending(names, Upto)
    ensures NamesDone(x, vs, listener, names, hosts, tls)
  {
    vs := [];
    for k := 0 to |names|
      invariant NamesDone(x, vs, listener, names[..k], hosts, tls)
    {
      AscendingFront(names, k);
      vs := MergeOrPush(x, vs, listener, names[k], hosts, tls, names[..k]);
    }
    assert names[..|names|] == names;
  }

  /** Marks the first virtual host that agrees, or adds one without names. */
  method MarkOrPush(vs: seq<WireVhost>, listener: string, routes: seq<WireRoute>, binding: Option<WireBinding>)
    returns (out: seq<WireVhost>, ghost d: nat)
    requires forall j :: 0 <= j < |vs| ==> vs[j].listener == listener && !vs[j].default
    ensures Marks(vs, out, d) && out[d].routes == routes && out[d].tls == binding
    ensures d >= |vs| ==> forall j :: 0 <= j < |vs| ==> vs[j].routes != routes || vs[j].tls != binding
    ensures forall j :: 0 <= j < |out| ==> out[j].listener == listener
  {
    // The source does not ask for the default mark here: no virtual host has it yet.
    var found := Find(vs, listener, false, routes, binding);
    if found.Some? {
      out := vs[found.value := vs[found.value].(default := true)];
      d := found.value;
    } else {
      out := vs + [WireVhost(listener, [], true, binding, routes)];
      d := |vs|;
    }
  }

  /** The default of a listener, after its names. */
  method ExportDefault(x: Syntax, vs: seq<WireVhost>, listener: string, hosts: VirtualHosts, tls: Option<ListenerTls>,
                       ghost names: seq<string>, ghost i: nat)
    returns (out: seq<WireVhost>)
    requires NamesDone(x, vs, listener, names, hosts, tls) && Lists(names, hosts.named.Keys) && hosts.default.Some?
    ensures HostsExported(x, out, Const(|out|, i), i, hosts, tls) && Merged(out) && Tidy(out, names)
    ensures forall j :: 0 <= j < |out| ==> out[j].listener == listener
  {
    ghost var d;
    out, d := MarkOrPush(vs, listener, ExportRoutes(x, hosts.default.value), DefaultBinding(tls));
    MergedMarked(vs, out, d);
    TidyMarked(vs, out, d, names);
    DefaultMarked(x, vs, out, listener, names, hosts, tls, i, d);
  }

  /** The virtual hosts of one listener: its names in order, then its default. */
  method ExportVhosts(x: Syntax, listener: string, hosts: VirtualHosts, tls: Option<ListenerTls>, ghost i: nat)
    returns (vs: seq<WireVhost>, ghost names: seq<string>)
    ensures Lists(names, hosts.named.Keys) && Ascending(names, Upto) && Tidy(vs, names)
    ensures HostsExported(x, vs, Const(|vs|, i), i, hosts, tls) && Merged(vs)
    ensures forall j :: 0 <= j < |vs| ==> vs[j].listener == listener
  {
    UptoOrders();
    var sorted := SortBy(hosts.named.Keys, Upto);
    names := sorted;
    vs := ExportNames(x, listener, hosts, tls, sorted);
    if hosts.default.None? {
      NamesAreHosts(x, vs, listener, names, hosts, tls, i);
    } else {
      vs := ExportDefault(x, vs, listener, hosts, tls, names, i);
    }
  }

  lemma DefaultOfOthers(x: Syntax, vs: seq<WireVhost>, at: seq<nat>, more: seq<WireVhost>, own: nat, i: nat,
                        routes: Routes, tls: Option<ListenerTls>, d: nat)
    requires |at| == |vs| && DefaultExported(x, vs, at, i, routes, tls, d) && own != i
    ensures DefaultExported(x, vs + more, at + Const(|more|, own), i, routes, tls, d)
  {
  }

  lemma NameOfOthers(vs: seq<WireVhost>, at: seq<nat>, more: seq<WireVhost>, own: nat, i: nat, n: string)
    requires |at| == |vs| && exists j :: 0 <= j < |vs| && at[j] == i && n in vs[j].names
    ensures exists j :: 0 <= j < |vs + more| && (at + Const(|more|, own))[j] == i && n in (vs + more)[j].names
  {
    var j :| 0 <= j < |vs| && at[j] == i && n in vs[j].names;
    assert (at + Const(|more|, own))[j] == i && (vs + more)[j] == vs[j];
  }

  lemma AppendOthers(x: Syntax, vs: seq<WireVhost>, at: seq<nat>, more: seq<WireVhost>, own: nat, i: nat,
                     hosts: VirtualHosts, tls: Option<ListenerTls>)
    requires |at| == |vs| && HostsExported(x, vs, at, i, hosts, tls) && own != i
    ensures HostsExported(x, vs + more, at + Const(|more|, own), i, hosts, tls)
  {
    var us, ats := vs + more, at + Const(|more|, own);
    forall j | 0 <= j < |us| && ats[j] == i ensures j < |vs| && at[j] == i && us[j] == vs[j] { }
    forall n | n in hosts.named ensures exists j :: 0 <= j < |us| && ats[j] == i && n in us[j].names {
      NameOfOthers(vs, at, more, own, i, n);
    }
    if hosts.default.Some? {
      var d: nat :| DefaultExported(x, vs, at, i, hosts.default.value, tls, d);
      DefaultOfOthers(x, vs, at, more, own, i, hosts.default.value, tls, d);
    }
  }

  lemma DefaultOfOwn(x: Syntax, vs: seq<WireVhost>, at: seq<nat>, more: seq<WireVhost>, i: nat, routes: Routes,
                     tls: Option<ListenerTls>, d: nat)
    requires |at| == |vs| && (forall j :: 0 <= j < |at| ==> at[j] != i)
    requires DefaultExported(x, more, Const(|more|, i), i, routes, tls, d)
    ensures DefaultExported(x, vs + more, at + Const(|more|, i), i, routes, tls, |vs| + d)
  {
    forall j | 0 <= j < |vs + more| && (at + Const(|more|, i))[j] == i && j != |vs| + d
      ensures !(vs + more)[j].default
    {
      assert |vs| <= j && (vs + more)[j] == more[j - |vs|];
    }
  }

  lemma NameOfOwn(vs: seq<WireVhost>, at: seq<nat>, more: seq<WireVhost>, i: nat, n: string)
    requires |at| == |vs| && exists j :: 0 <= j < |more| && Const(|more|, i)[j] == i && n in more[j].names
    ensures exists j :: 0 <= j < |vs + more| && (at + Const(|more|, i))[j] == i && n in (vs + more)[j].names
  {
    var j :| 0 <= j < |more| && Const(|more|, i)[j] == i && n in more[j].names;
    assert (vs + more)[|vs| + j] == more[j] && (at + Const(|more|, i))[|vs| + j] == i;
  }

  lemma AppendOwn(x: Syntax, vs: seq<WireVhost>, at: seq<nat>, more: seq<WireVhost>, i: nat, hosts: VirtualHosts,
                  tls: Option<ListenerTls>)
    requires |at| == |vs| && (forall j :: 0 <= j < |at| ==> at[j] != i)
    requires HostsExported(x, more, Const(|more|, i), i, hosts, tls)
    ensures HostsExported(x, vs + more, at + Const(|more|, i), i, hosts, tls)
  {
    var us, ats := vs + more, at + Const(|more|, i);
    forall n | n in hosts.named ensures exists j :: 0 <= j < |us| && ats[j] == i && n in us[j].names {
      NameOfOwn(vs, at, more, i, n);
    }
    forall j | 0 <= j < |us| && ats[j] == i
      ensures |vs| <= j && us[j] == more[j - |vs|] && Const(|more|, i)[j - |vs|] == i
    {
    }
    if hosts.default.Some? {
      var d: nat :| DefaultExported(x, more, Const(|more|, i), i, hosts.default.value, tls, d);
      DefaultOfOwn(x, vs, at, more, i, hosts.default.value, tls, d);
    }
  }

  /** The listeners done so far. */
  ghost predicate FirstExported(x: Syntax, r: Router, order: seq<ListenKey>, vs: seq<WireVhost>, at: seq<nat>, n: nat)
    requires n <= |order| && forall i :: 0 <= i < |order| ==> order[i] in r.listeners
  {
    && |at| == |vs| && (forall j :: 0 <= j < |at| ==> at[j] < n && vs[j].listener == ListenerName(at[j]))
    && forall i :: 0 <= i < n ==> HostsExported(x, vs, at, i, r.listeners[order[i]], TlsOption(r, order[i]))
  }

  lemma OneMoreExported(x: Syntax, r: Router, order: seq<ListenKey>, vs: seq<WireVhost>, at: seq<nat>, n: nat,
                        more: seq<WireVhost>)
    requires n < |order| && (forall i :: 0 <= i < |order| ==> order[i] in r.listeners)
    requires FirstExported(x, r, order, vs, at, n)
    requires HostsExported(x, more, Const(|more|, n), n, r.listeners[order[n]], TlsOption(r, order[n]))
    requires forall j :: 0 <= j < |more| ==> more[j].listener == ListenerName(n)
    ensures FirstExported(x, r, order, vs + more, at + Const(|more|, n), n + 1)
  {
    forall i | 0 <= i < n + 1
      ensures HostsExported(x, vs + more, at + Const(|more|, n), i, r.listeners[order[i]], TlsOption(r, order[i]))
    {
      if i < n {
        AppendOthers(x, vs, at, more, n, i, r.listeners[order[i]], TlsOption(r, order[i]));
      } else {
        AppendOwn(x, vs, at, more, n, r.listeners[order[n]], TlsOption(r, order[n]));
      }
    }
  }

  // ---- what is exported first ----

  lemma LeadsStay(vs: seq<WireVhost>, at: seq<nat>, more: seq<WireVhost>, own: nat, i: nat, n: string)
    requires |at| == |vs| && Leads(vs, at, i, n)
    ensures Leads(vs + more, at + Const(|more|, own), i, n)
  {
    FirstAtFront(at, Const(|more|, own), i);
  }

  lemma LeadsNew(vs: seq<WireVhost>, at: seq<nat>, more: seq<WireVhost>, i: nat, n: string)
    requires |at| == |vs| && i !in at && more != [] && n in more[0].names
    ensures Leads(vs + more, at + Const(|more|, i), i, n)
  {
    FirstAtBack(at, Const(|more|, i), i);
  }

  /** On the listeners done so far the least name is exported first, and names are in order. */
  ghost predicate LedSoFar(r: Router, order: seq<ListenKey>, vs: seq<WireVhost>, at: seq<nat>, n: nat)
    requires n <= |order| && forall i :: 0 <= i < |order| ==> order[i] in r.listeners
  {
    && (forall j :: 0 <= j < |vs| ==> Ascending(vs[j].names, Upto))
    && forall i, m :: 0 <= i < n && IsLeast(m, r.listeners[order[i]].named.Keys) ==> Leads(vs, at, i, m)
  }

  lemma OneMoreLed(r: Router, order: seq<ListenKey>, vs: seq<WireVhost>, at: seq<nat>, n: nat, more: seq<WireVhost>,
                   names: seq<string>)
    requires n < |order| && (forall i :: 0 <= i < |order| ==> order[i] in r.listeners)
    requires |at| == |vs| && (forall j :: 0 <= j < |at| ==> at[j] < n) && LedSoFar(r, order, vs, at, n)
    requires Lists(names, r.listeners[order[n]].named.Keys) && Ascending(names, Upto) && Tidy(more, names)
    ensures LedSoFar(r, order, vs + more, at + Const(|more|, n), n + 1)
  {
    forall i, m | 0 <= i < n + 1 && IsLeast(m, r.listeners[order[i]].named.Keys)
      ensures Leads(vs + more, at + Const(|more|, n), i, m)
    {
      if i < n {
        LeadsStay(vs, at, more, n, i, m);
      } else {
        FirstIsLeast(names, r.listeners[order[n]].named.Keys);
        LeastUnique(m, names[0], r.listeners[order[n]].named.Keys);
        LeadsNew(vs, at, more, n, m);
      }
    }
  }

  function GroupRank(r: Router): string -> string { k => if k in r.upstreams then r.upstreams[k].name else k }

  function ProfileRank(r: Router): string -> string { k => if k in r.profiles then r.profiles[k].name else k }

  /** Everything is written in the order the exporter sorts it in. */
  ghost predicate InOrder(r: Router, e: Export) {
    && Ascending(e.order, KeyUpto) && Ascending(e.groups, ByRank(GroupRank(r)))
    && Ascending(e.profiles, ByRank(ProfileRank(r)))
    && (forall j :: 0 <= j < |e.wire.vhosts| ==> Ascending(e.wire.vhosts[j].names, Upto))
    && LeastLeads(r, e)
  }

  /** The virtual hosts of all listeners, in order. */
  method ExportAllVhosts(x: Syntax, r: Router, order: seq<ListenKey>)
    returns (vhosts: seq<WireVhost>, ghost at: seq<nat>)
    requires Lists(order, r.listeners.Keys)
    ensures FirstExported(x, r, order, vhosts, at, |order|) && LedSoFar(r, order, vhosts, at, |order|)
  {
    vhosts, at := [], [];
    for k := 0 to |order|
      invariant FirstExported(x, r, order, vhosts, at, k) && LedSoFar(r, order, vhosts, at, k)
    {
      var more;
      ghost var names;
      more, names := ExportVhosts(x, ListenerName(k), r.listeners[order[k]], TlsOption(r, order[k]), k);
      OneMoreExported(x, r, order, vhosts, at, k, more);
      OneMoreLed(r, order, vhosts, at, k, more, names);
      vhosts := vhosts + more;
      at := at + Const(|more|, k);
    }
  }

  function Message(x: Syntax, r: Router, order: seq<ListenKey>, groups: seq<string>, profiles: seq<string>,
                   vhosts: seq<WireVhost>): Wire
    requires Lists(groups, r.upstreams.Keys) && Lists(profiles, r.profiles.Keys)
  {
    Wire(Some(WireOptionsOf(x, r.options)), ExportListeners(x, r, order), vhosts, ExportGroups(r.upstreams, groups),
         WireLeOf(r.letsEncrypt), Profiles(r, profiles), WireGeoOf(x, r.geoip))
  }

  lemma MessageExports(x: Syntax, r: Router, order: seq<ListenKey>, groups: seq<string>, profiles: seq<string>,
                       vhosts: seq<WireVhost>, at: seq<nat>)
    requires Lists(order, r.listeners.Keys) && Lists(groups, r.upstreams.Keys) && Lists(profiles, r.profiles.Keys)
    requires FirstExported(x, r, order, vhosts, at, |order|)
    ensures Exports(x, r, Export(order, groups, profiles, at, Message(x, r, order, groups, profiles, vhosts)))
  {
  }

  lemma MessageInOrder(r: Router, e: Export)
    requires Lists(e.order, r.listeners.Keys) && LedSoFar(r, e.order, e.wire.vhosts, e.at, |e.order|)
    requires Ascending(e.order, KeyUpto)
    requires Ascending(e.groups, ByRank(GroupRank(r))) && Ascending(e.profiles, ByRank(ProfileRank(r)))
    ensures InOrder(r, e)
  {
  }

  /** The whole export, everything in order. */
  method ExportSnapshot(x: Syntax, r: Router) returns (w: Wire)
    ensures exists e :: Exports(x, r, e) && e.wire == w && InOrder(r, e)
  {
    KeysOrder();
    RankOrders(GroupRank(r));
    RankOrders(ProfileRank(r));
    var order := SortBy(r.listeners.Keys, KeyUpto);
    var groups := SortBy(r.upstreams.Keys, ByRank(GroupRank(r)));
    var profiles := SortBy(r.profiles.Keys, ByRank(ProfileRank(r)));
    var vhosts;
    ghost var at;
    vhosts, at := ExportAllVhosts(x, r, order);
    w := Message(x, r, order, groups, profiles, vhosts);
    MessageExports(x, r, order, groups, profiles, vhosts, at);
    MessageInOrder(r, Export(order, groups, profiles, at, w));
  }
}

/** Exporting the active router and reading the export again. */
module WireExport {
  import opened Common
  import opened Config
  import opened WireRoute
  import opened WireParts
  import opened WireSnapshot
  import opened RouterBuild
  import opened RouterFacts
  import ClientIp
  import Control
  import DurationLiteral
  import Lexer

  // ---- listener names ----

  function Digit(n: nat): char
    requires n < 10
  {
    ('0' as int + n) as char
  }

  function Decimal(n: nat): (s: string)
    ensures s != []
  {
    if n < 10 then [Digit(n)] else Decimal(n / 10) + [Digit(n % 10)]
  }

  lemma {:induction false} DecimalReads(n: nat)
    ensures DurationLiteral.AllDigits(Decimal(n)) && DurationLiteral.Value(Decimal(n)) == n
  {
    if n < 10 {
      assert [Digit(n)][..0] == [];
    } else {
      DecimalReads(n / 10);
      assert Decimal(n)[..|Decimal(n)| - 1] == Decimal(n / 10);
    }
  }

  function ListenerName(i: nat): string { "listener-" + Decimal(i + 1) }

  lemma ListenerNamesDiffer(i: nat, j: nat)
    requires ListenerName(i) == ListenerName(j)
    ensures i == j
  {
    DecimalReads(i + 1);
    DecimalReads(j + 1);
    assert ListenerName(i)[9..] == Decimal(i + 1) && ListenerName(j)[9..] == Decimal(j + 1);
  }

  lemma ListenerNameTrimmed(i: nat)
    ensures ListenerName(i) != "" && ClientIp.Trim(ListenerName(i)) == ListenerName(i)
  {
    var s := ListenerName(i);
    DecimalReads(i + 1);
    assert s[0] == 'l';
    Lexer.NotInRanges('l' as int, Lexer.WHITE_SPACE);
    var last := s[|s| - 1];
    assert last == Decimal(i + 1)[|Decimal(i + 1)| - 1] && DurationLiteral.IsDigit(last);
    Lexer.NotInRanges(last as int, Lexer.WHITE_SPACE);
    TrimFixes(s);
  }

  // ---- the export ----

  function SettingsAt(r: Router, key: ListenKey): TlsSettings {
    if key in r.tls then r.tls[key].settings else NoSettings
  }

  function TlsOption(r: Router, key: ListenKey): Option<ListenerTls> { if key in r.tls then Some(r.tls[key]) else None }

  function ExportListener(x: Syntax, r: Router, key: ListenKey, name: string): WireListener {
    var p := Control.ProtocolAt(r, key);
    WireListener(name, x.showIp(key.addr), Clip(key.port), key.ssl, p.http2, p.http2Only,
                 if key in r.tls then Some(WireSettingsOf(r.tls[key].settings)) else None)
  }

  function ExportListeners(x: Syntax, r: Router, order: seq<ListenKey>): seq<WireListener> {
    seq(|order|, i requires 0 <= i < |order| => ExportListener(x, r, order[i], ListenerName(i)))
  }

  function ExportRoutes(x: Syntax, routes: Routes): seq<WireRoute> {
    seq(|routes|, i requires 0 <= i < |routes| => WireRouteOf(x, routes[i].content))
  }

  function Binding(i: Option<TlsIdentity>): Option<WireBinding> {
    if i.None? then None else Some(WireBindingOf(i.value))
  }

  /** The certificate exported for a name: its own, else the fallback. */
  function NameBinding(tls: Option<ListenerTls>, n: string): Option<WireBinding> {
    if tls.None? then None else Binding(if n in tls.value.named then Some(tls.value.named[n]) else tls.value.default)
  }

  function DefaultBinding(tls: Option<ListenerTls>): Option<WireBinding> {
    if tls.None? then None else Binding(tls.value.default)
  }

  /** The vhosts `vs[j]` with `at[j] == i` stand for the hosts of listener `i`. */
  ghost predicate HostsExported(x: Syntax, vs: seq<WireVhost>, at: seq<nat>, i: nat, hosts: VirtualHosts,
                                tls: Option<ListenerTls>)
    requires |at| == |vs|
  {
    && (forall j :: 0 <= j < |vs| && at[j] == i ==> vs[j].names != [] || vs[j].default)
    && (forall n :: n in hosts.named ==> exists j :: 0 <= j < |vs| && at[j] == i && n in vs[j].names)
    && (forall j, n :: 0 <= j < |vs| && at[j] == i && n in vs[j].names ==>
                         n in hosts.named && vs[j].routes == ExportRoutes(x, hosts.named[n])
                         && vs[j].tls == NameBinding(tls, n))
    && (hosts.default.None? ==> forall j :: 0 <= j < |vs| && at[j] == i ==> !vs[j].default)
    && (hosts.default.Some? ==> exists d :: DefaultExported(x, vs, at, i, hosts.default.value, tls, d))
  }

  ghost predicate DefaultExported(x: Syntax, vs: seq<WireVhost>, at: seq<nat>, i: nat, routes: Routes,
                                  tls: Option<ListenerTls>, d: nat)
    requires |at| == |vs|
  {
    && d < |vs| && at[d] == i && vs[d].default && vs[d].routes == ExportRoutes(x, routes)
    && vs[d].tls == DefaultBinding(tls)
    && forall j :: 0 <= j < |vs| && at[j] == i && j != d ==> !vs[j].default
  }

  /** A message with the orders it was written in; `at[j]` is the listener of virtual host `j`. */
  datatype Export = Export(order: seq<ListenKey>, groups: seq<string>, profiles: seq<string>, at: seq<nat>, wire: Wire)

  function Profiles(r: Router, order: seq<string>): seq<ScpProfile>
    requires forall i :: 0 <= i < |order| ==> order[i] in r.profiles
  {
    seq(|order|, i requires 0 <= i < |order| => r.profiles[order[i]])
  }

  /** The settings part of an export. */
  ghost predicate FrameExported(x: Syntax, r: Router, e: Export) {
    && Lists(e.groups, r.upstreams.Keys) && Lists(e.profiles, r.profiles.Keys)
    && e.wire.http == Some(WireOptionsOf(x, r.options)) && e.wire.geoip == WireGeoOf(x, r.geoip)
    && e.wire.letsEncrypt == WireLeOf(r.letsEncrypt)
    && e.wire.listeners == ExportListeners(x, r, e.order) && e.wire.groups == ExportGroups(r.upstreams, e.groups)
    && e.wire.profiles == Profiles(r, e.profiles)
  }

  /** The virtual hosts of an export, listener by listener. */
  ghost predicate VhostsExported(x: Syntax, r: Router, e: Export) {
    && Lists(e.order, r.listeners.Keys) && |e.at| == |e.wire.vhosts|
    && (forall j :: 0 <= j < |e.at| ==> e.at[j] < |e.order| && e.wire.vhosts[j].listener == ListenerName(e.at[j]))
    && (forall i :: 0 <= i < |e.order| ==>
                      HostsExported(x, e.wire.vhosts, e.at, i, r.listeners[e.order[i]], TlsOption(r, e.order[i])))
  }

  /** `e` is an export of `r`, with listeners, groups and profiles in whatever order. */
  ghost predicate Exports(x: Syntax, r: Router, e: Export) { FrameExported(x, r, e) && VhostsExported(x, r, e) }

  // ---- reading the frame again ----

  function DefAt(r: Router, key: ListenKey): Def { Def(key, Control.ProtocolAt(r, key), SettingsAt(r, key)) }

  lemma ListenerReads(x: Syntax, r: Router, key: ListenKey, name: string, good: RouteProperty)
    requires Faithful(x) && key in r.listeners && ListenerOk(r, key, good)
    ensures DefOf(x, ExportListener(x, r, key, name)) == Some(DefAt(r, key))
  {
    assert x.parseIp(x.showIp(key.addr)) == Some(key.addr);
  }

  /** The definitions read from the first listeners. */
  ghost predicate DefsFor(defs: map<string, Def>, r: Router, order: seq<ListenKey>) {
    && (forall i :: 0 <= i < |order| ==> ListenerName(i) in defs && defs[ListenerName(i)] == DefAt(r, order[i]))
    && (forall name :: name in defs ==> exists i :: 0 <= i < |order| && name == ListenerName(i))
  }

  lemma OneMoreListener(x: Syntax, ls: seq<WireListener>, l: WireListener, defs: map<string, Def>, def: Def)
    requires DefsOf(x, ls) == Some(defs) && DefOf(x, l) == Some(def)
    requires l.name != "" && ClientIp.Trim(l.name) == l.name && l.name !in defs
    ensures DefsOf(x, ls + [l]) == Some(defs[l.name := def])
  {
    assert (ls + [l])[..|ls|] == ls;
  }

  ghost predicate ReadsBack(x: Syntax, r: Router, key: ListenKey) {
    forall name :: DefOf(x, ExportListener(x, r, key, name)) == Some(DefAt(r, key))
  }

  lemma NameIsNew(before: map<string, Def>, r: Router, front: seq<ListenKey>)
    requires DefsFor(before, r, front)
    ensures ListenerName(|front|) !in before
  {
    if ListenerName(|front|) in before {
      var i :| 0 <= i < |front| && ListenerName(|front|) == ListenerName(i);
      ListenerNamesDiffer(|front|, i);
    }
  }

  lemma {:induction false} ListenersRead(x: Syntax, r: Router, order: seq<ListenKey>)
    requires forall i :: 0 <= i < |order| ==> ReadsBack(x, r, order[i])
    ensures DefsOf(x, ExportListeners(x, r, order)).Some?
    ensures DefsFor(DefsOf(x, ExportListeners(x, r, order)).value, r, order)
    decreases |order|
  {
    if order != [] {
      var n := |order| - 1;
      var front, l := order[..n], ExportListener(x, r, order[n], ListenerName(n));
      ListenersRead(x, r, front);
      var before := DefsOf(x, ExportListeners(x, r, front)).value;
      assert ExportListeners(x, r, order) == ExportListeners(x, r, front) + [l];
      NameIsNew(before, r, front);
      ListenerNameTrimmed(n);
      assert ReadsBack(x, r, order[n]);
      OneMoreListener(x, ExportListeners(x, r, front), l, before, DefAt(r, order[n]));
      DefsGrow(before, r, order);
    }
  }

  lemma DefsGrow(before: map<string, Def>, r: Router, order: seq<ListenKey>)
    requires order != [] && DefsFor(before, r, order[..|order| - 1]) && ListenerName(|order| - 1) !in before
    ensures DefsFor(before[ListenerName(|order| - 1) := DefAt(r, order[|order| - 1])], r, order)
  {
    var n := |order| - 1;
    var defs := before[ListenerName(n) := DefAt(r, order[n])];
    forall i | 0 <= i < |order| ensures ListenerName(i) in defs && defs[ListenerName(i)] == DefAt(r, order[i]) {
      if i < n { assert order[..n][i] == order[i] && ListenerName(i) in before; }
    }
    forall name | name in defs ensures exists i :: 0 <= i < |order| && name == ListenerName(i) {
      if name in before { var i :| 0 <= i < n && name == ListenerName(i); }
    }
  }

  lemma {:induction false} ProfilesRead(x: Syntax, r: Router, order: seq<string>, k: string)
    requires (forall i :: 0 <= i < |order| ==> order[i] in r.profiles) && NoRepeats(order)
    requires forall k :: k in r.profiles ==> r.profiles[k].name == k && x.profile(r.profiles[k], r.upstreams)
    ensures ProfilesOf(x, Profiles(r, order), r.upstreams).Some?
    ensures var m := ProfilesOf(x, Profiles(r, order), r.upstreams).value;
            (k in m <==> k in order) && (k in m ==> k in r.profiles && m[k] == r.profiles[k])
    decreases |order|
  {
    if order != [] {
      var front, last := order[..|order| - 1], order[|order| - 1];
      NoRepeatsFront(order);
      ProfilesRead(x, r, front, k);
      ProfilesRead(x, r, front, last);
      assert Profiles(r, order)[..|order| - 1] == Profiles(r, front);
    }
  }

  lemma ProfilesRoundTrip(x: Syntax, r: Router, order: seq<string>)
    requires Lists(order, r.profiles.Keys)
    requires forall k :: k in r.profiles ==> r.profiles[k].name == k && x.profile(r.profiles[k], r.upstreams)
    ensures ProfilesOf(x, Profiles(r, order), r.upstreams) == Some(r.profiles)
  {
    ProfilesRead(x, r, order, "");
    var m := ProfilesOf(x, Profiles(r, order), r.upstreams).value;
    forall k ensures (k in m <==> k in r.profiles) && (k in m ==> m[k] == r.profiles[k]) {
      ProfilesRead(x, r, order, k);
    }
    assert m == r.profiles;
  }

  function Bare(r: Router): Build { Start(r.upstreams, r.profiles, r.options, r.letsEncrypt, r.geoip) }

  lemma AllReadBack(x: Syntax, r: Router, order: seq<ListenKey>, good: RouteProperty)
    requires Faithful(x) && forall i :: 0 <= i < |order| ==> order[i] in r.listeners && ListenerOk(r, order[i], good)
    ensures forall i :: 0 <= i < |order| ==> ReadsBack(x, r, order[i])
  {
    forall i | 0 <= i < |order| ensures ReadsBack(x, r, order[i]) {
      forall name ensures DefOf(x, ExportListener(x, r, order[i], name)) == Some(DefAt(r, order[i])) {
        ListenerReads(x, r, order[i], name, good);
      }
    }
  }

  lemma FrameFrom(x: Syntax, w: Wire, r: Router)
    requires GroupsOf(x, w.groups) == Some(r.upstreams) && OptionsOf(x, w.http) == Some(r.options)
    requires GeoOf(x, w.geoip) == Some(r.geoip)
    requires ProfilesOf(x, w.profiles, r.upstreams) == Some(r.profiles) && LeOf(w.letsEncrypt) == r.letsEncrypt
    requires DefsOf(x, w.listeners).Some?
    ensures FrameOf(x, w) == Some(Frame(Bare(r), DefsOf(x, w.listeners).value))
  {
  }

  lemma FrameReads(x: Syntax, r: Router, e: Export)
    requires FrameExported(x, r, e) && SettingsExportable(x, r) && DefsOf(x, e.wire.listeners).Some?
    ensures FrameOf(x, e.wire) == Some(Frame(Bare(r), DefsOf(x, e.wire.listeners).value))
  {
    GroupsRoundTrip(x, r.upstreams, e.groups);
    ProfilesRoundTrip(x, r, e.profiles);
    FrameFrom(x, e.wire, r);
  }

  /** Everything but the virtual hosts is read back as it was. */
  lemma FrameRoundTrip(x: Syntax, r: Router, e: Export)
    requires Faithful(x) && RouterOk(x, r) && Exports(x, r, e)
    ensures FrameOf(x, e.wire).Some? && FrameOf(x, e.wire).value.build == Bare(r)
    ensures DefsFor(FrameOf(x, e.wire).value.defs, r, e.order)
  {
    AllReadBack(x, r, e.order, Good(x, r));
    ListenersRead(x, r, e.order);
    FrameReads(x, r, e);
  }

  // ---- reading a virtual host again ----

  predicate StableRoutes(routes: Routes, ups: map<string, UpstreamGroup>) {
    forall i :: 0 <= i < |routes| ==> StableTarget(routes[i].content.target, ups)
  }

  predicate StableHosts(hosts: VirtualHosts, ups: map<string, UpstreamGroup>) {
    (forall n :: n in hosts.named ==> StableRoutes(hosts.named[n], ups))
    && (hosts.default.Some? ==> StableRoutes(hosts.default.value, ups))
  }

  /** No location proxies to port 0, or to the scheme's own port of a host that has the name of an upstream group. */
  predicate StableRouter(r: Router) { forall k :: k in r.listeners ==> StableHosts(r.listeners[k], r.upstreams) }

  function ServerFor(r: Router, key: ListenKey, v: WireVhost, identity: Option<TlsIdentity>): Server<WireRoute> {
    var provider := if identity.None? then None else Some(Custom(identity.value));
    Server(v.names, v.routes, [Listen(key, v.default, Control.ProtocolAt(r, key))], provider, SettingsAt(r, key))
  }

  lemma VhostReads(defs: map<string, Def>, r: Router, order: seq<ListenKey>, i: nat, v: WireVhost,
                   identity: Option<TlsIdentity>)
    requires DefsFor(defs, r, order) && i < |order| && v.listener == ListenerName(i) && v.tls == Binding(identity)
    requires identity.Some? <==> order[i].ssl
    ensures VhostServer(defs, v) == Some(ServerFor(r, order[i], v, identity))
  {
    assert defs[ListenerName(i)] == DefAt(r, order[i]);
  }

  lemma ExportKinds(x: Syntax, routes: Routes)
    requires Uniform(Contents(routes))
    ensures !Mixed(WireFrontend(x), ExportRoutes(x, routes))
  {
    var ls := ExportRoutes(x, routes);
    forall i | 0 <= i < |ls| ensures IsHttp()(ls[i]) <==> Contents(routes)[i].matcher.Http? {
    }
  }

  lemma ExportCompiles(x: Syntax, r: Router, key: ListenKey, routes: Routes)
    requires GoodRoutes(x, r, key, routes) && StableRoutes(routes, r.upstreams)
    ensures Compiled(WireFrontend(x), ExportRoutes(x, routes), r.upstreams) == Some(Contents(routes))
  {
    forall i | 0 <= i < |routes| ensures CompileRoute(x, r.upstreams, ExportRoutes(x, routes)[i])
                                      == Some(Contents(routes)[i]) {
      assert GoodContent(x, r, ListenAt(r, key), routes[i].content)
             && StableTarget(routes[i].content.target, r.upstreams);
    }
    WireCompiles(x, ExportRoutes(x, routes), r.upstreams, Contents(routes));
  }

  lemma ExportPassesScp(x: Syntax, r: Router, key: ListenKey, routes: Routes, s: Server<WireRoute>, again: Routes)
    requires GoodRoutes(x, r, key, routes) && Contents(again) == Contents(routes)
    requires |s.listens| == 1 && s.listens[0].key == key && s.listens[0].protocol == Control.ProtocolAt(r, key)
    ensures ScpError(Bare(r).router, s, again).None?
  {
    forall i | 0 <= i < |again| && again[i].content.target.Scp?
      ensures again[i].content.target.profile in r.profiles
      ensures forall j :: 0 <= j < |s.listens| ==> SpeaksHttp2(s.listens[j], r.options.h2c)
    {
      assert Contents(again)[i] == Contents(routes)[i];
      assert GoodContent(x, r, ListenAt(r, key), routes[i].content);
    }
    ScpPasses(Bare(r).router, s, again);
  }

  /** An exported block compiles again, whatever number it starts from, to the same contents. */
  lemma BlockReads(x: Syntax, r: Router, key: ListenKey, routes: Routes, v: WireVhost, identity: Option<TlsIdentity>,
                   next: nat)
    requires GoodRoutes(x, r, key, routes) && StableRoutes(routes, r.upstreams) && v.routes == ExportRoutes(x, routes)
    requires forall i :: 0 <= i < |v.names| ==> NameOk(v.names[i])
    ensures ServerRoutes(WireFrontend(x), Bare(r).router, next, ServerFor(r, key, v, identity)).Ok?
    ensures Contents(ServerRoutes(WireFrontend(x), Bare(r).router, next, ServerFor(r, key, v, identity)).value)
         == Contents(routes)
  {
    var s := ServerFor(r, key, v, identity);
    NamesPass(v.names);
    ExportKinds(x, routes);
    ExportCompiles(x, r, key, routes);
    CompileListContents(WireFrontend(x), v.routes, r.upstreams, next);
    ExportPassesScp(x, r, key, routes, s, CompileList(WireFrontend(x), v.routes, r.upstreams, next).value);
  }

  lemma BodyReads(x: Syntax, r: Router, key: ListenKey, routes: Routes, v: WireVhost, identity: Option<TlsIdentity>)
    requires GoodRoutes(x, r, key, routes) && v.routes == ExportRoutes(x, routes)
    ensures BodyTimeoutOk(ServerFor(r, key, v, identity), r.options)
  {
    forall i | 0 <= i < |v.routes| && AcceptsHttp2(ListenAt(r, key), r.options.h2c)
      ensures !Positive(v.routes[i].bodyTimeout) {
      assert GoodContent(x, r, ListenAt(r, key), routes[i].content);
    }
  }

  /** What an exported virtual host stands for. */
  ghost predicate StandsFor(x: Syntax, r: Router, key: ListenKey, v: WireVhost, routes: Routes,
                            identity: Option<TlsIdentity>, good: RouteProperty) {
    && key in r.listeners && v.routes == ExportRoutes(x, routes) && good(key, routes)
    && v.tls == Binding(identity) && (identity.Some? <==> key.ssl)
    && (forall i :: 0 <= i < |v.names| ==> NormalName(v.names[i]) && v.names[i] in r.listeners[key].named)
    && (r.listeners[key].default == Some(routes)
        || exists n :: n in r.listeners[key].named && r.listeners[key].named[n] == routes)
  }

  lemma NamesAreNormal(x: Syntax, r: Router, key: ListenKey, vs: seq<WireVhost>, at: seq<nat>, i: nat, j: nat,
                       good: RouteProperty)
    requires key in r.listeners && ListenerOk(r, key, good) && |at| == |vs| && j < |vs| && at[j] == i
    requires HostsExported(x, vs, at, i, r.listeners[key], TlsOption(r, key))
    ensures forall m :: 0 <= m < |vs[j].names| ==>
                          NormalName(vs[j].names[m]) && vs[j].names[m] in r.listeners[key].named
  {
    forall m | 0 <= m < |vs[j].names| ensures NormalName(vs[j].names[m]) && vs[j].names[m] in r.listeners[key].named {
      assert vs[j].names[m] in vs[j].names;
    }
  }

  lemma NamedStandsFor(x: Syntax, r: Router, key: ListenKey, vs: seq<WireVhost>, at: seq<nat>, i: nat, j: nat,
                       good: RouteProperty) returns (routes: Routes, identity: Option<TlsIdentity>)
    requires key in r.listeners && ListenerOk(r, key, good) && |at| == |vs| && j < |vs| && at[j] == i
    requires HostsExported(x, vs, at, i, r.listeners[key], TlsOption(r, key)) && vs[j].names != []
    ensures StandsFor(x, r, key, vs[j], routes, identity, good)
  {
    NamesAreNormal(x, r, key, vs, at, i, j, good);
    ExportedName(x, vs, at, i, r.listeners[key], TlsOption(r, key), j, vs[j].names[0]);
    routes, identity := NameStandsFor(x, r, key, vs[j], good);
  }

  lemma NameStandsFor(x: Syntax, r: Router, key: ListenKey, v: WireVhost, good: RouteProperty)
    returns (routes: Routes, identity: Option<TlsIdentity>)
    requires key in r.listeners && ListenerOk(r, key, good) && v.names != []
    requires forall m :: 0 <= m < |v.names| ==> NormalName(v.names[m]) && v.names[m] in r.listeners[key].named
    requires v.routes == ExportRoutes(x, r.listeners[key].named[v.names[0]])
    requires v.tls == NameBinding(TlsOption(r, key), v.names[0])
    ensures StandsFor(x, r, key, v, routes, identity, good)
  {
    routes := r.listeners[key].named[v.names[0]];
    identity := if key in r.tls then Some(r.tls[key].named[v.names[0]]) else None;
  }

  lemma DefaultStandsFor(x: Syntax, r: Router, key: ListenKey, vs: seq<WireVhost>, at: seq<nat>, i: nat, j: nat,
                         good: RouteProperty) returns (routes: Routes, identity: Option<TlsIdentity>)
    requires key in r.listeners && ListenerOk(r, key, good) && |at| == |vs| && j < |vs| && at[j] == i
    requires HostsExported(x, vs, at, i, r.listeners[key], TlsOption(r, key)) && vs[j].default
    ensures StandsFor(x, r, key, vs[j], routes, identity, good) && r.listeners[key].default == Some(routes)
    ensures DefaultBinding(TlsOption(r, key)) == Binding(identity)
  {
    NamesAreNormal(x, r, key, vs, at, i, j, good);
    var tls := TlsOption(r, key);
    routes := r.listeners[key].default.value;
    identity := if tls.None? then None else tls.value.default;
    var d :| DefaultExported(x, vs, at, i, routes, tls, d);
    assert d == j;
  }

  lemma VhostStandsFor(x: Syntax, r: Router, e: Export, j: nat) returns (routes: Routes, identity: Option<TlsIdentity>)
    requires RouterOk(x, r) && VhostsExported(x, r, e) && j < |e.at|
    ensures StandsFor(x, r, e.order[e.at[j]], e.wire.vhosts[j], routes, identity, Good(x, r))
  {
    var i := e.at[j];
    ExportAt(x, r, e, i);
    if e.wire.vhosts[j].names != [] {
      routes, identity := NamedStandsFor(x, r, e.order[i], e.wire.vhosts, e.at, i, j, Good(x, r));
    } else {
      routes, identity := DefaultStandsFor(x, r, e.order[i], e.wire.vhosts, e.at, i, j, Good(x, r));
    }
  }

  lemma ExportAt(x: Syntax, r: Router, e: Export, i: nat)
    requires RouterOk(x, r) && VhostsExported(x, r, e) && i < |e.order|
    ensures e.order[i] in r.listeners && ListenerOk(r, e.order[i], Good(x, r)) && |e.at| == |e.wire.vhosts|
    ensures HostsExported(x, e.wire.vhosts, e.at, i, r.listeners[e.order[i]], TlsOption(r, e.order[i]))
  {
  }

  // ---- reading all virtual hosts again ----

  /** A block is a virtual host read again, and stands for these routes and this certificate. */
  ghost predicate ReadAs(x: Syntax, r: Router, key: ListenKey, v: WireVhost, s: Server<WireRoute>, routes: Routes,
                         identity: Option<TlsIdentity>) {
    s == ServerFor(r, key, v, identity) && StandsFor(x, r, key, v, routes, identity, Good(x, r))
  }

  /** Block `j` is virtual host `j` read again. */
  ghost predicate Reading(x: Syntax, r: Router, e: Export, servers: seq<Server<WireRoute>>, routes: seq<Routes>,
                          ids: seq<Option<TlsIdentity>>) {
    && |servers| == |routes| == |ids| == |e.at| == |e.wire.vhosts| && NoRepeats(e.order)
    && (forall j :: 0 <= j < |servers| ==> e.at[j] < |e.order|)
    && (forall j :: 0 <= j < |servers| ==>
                      ReadAs(x, r, e.order[e.at[j]], e.wire.vhosts[j], servers[j], routes[j], ids[j]))
  }

  lemma ReadVhost(x: Syntax, r: Router, e: Export, defs: map<string, Def>, j: nat)
    returns (s: Server<WireRoute>, routes: Routes, identity: Option<TlsIdentity>)
    requires RouterOk(x, r) && VhostsExported(x, r, e) && DefsFor(defs, r, e.order) && j < |e.at|
    ensures ReadAs(x, r, e.order[e.at[j]], e.wire.vhosts[j], s, routes, identity)
    ensures Vhosts(defs)(e.wire.vhosts[j]) == Some(s)
  {
    routes, identity := VhostStandsFor(x, r, e, j);
    VhostReads(defs, r, e.order, e.at[j], e.wire.vhosts[j], identity);
    s := ServerFor(r, e.order[e.at[j]], e.wire.vhosts[j], identity);
  }

  ghost predicate Readable(x: Syntax, r: Router, key: ListenKey, v: WireVhost, defs: map<string, Def>) {
    exists s, routes, identity :: ReadAs(x, r, key, v, s, routes, identity) && Vhosts(defs)(v) == Some(s)
  }

  lemma {:induction false} ReadFirst(x: Syntax, r: Router, keys: seq<ListenKey>, vs: seq<WireVhost>,
                                     defs: map<string, Def>, n: nat)
    returns (servers: seq<Server<WireRoute>>, routes: seq<Routes>, ids: seq<Option<TlsIdentity>>)
    requires n <= |keys| == |vs| && forall j :: 0 <= j < n ==> Readable(x, r, keys[j], vs[j], defs)
    ensures |servers| == |routes| == |ids| == n
    ensures forall j :: 0 <= j < n ==>
                          ReadAs(x, r, keys[j], vs[j], servers[j], routes[j], ids[j])
                          && Vhosts(defs)(vs[j]) == Some(servers[j])
  {
    if n == 0 {
      servers, routes, ids := [], [], [];
    } else {
      servers, routes, ids := ReadFirst(x, r, keys, vs, defs, n - 1);
      assert Readable(x, r, keys[n - 1], vs[n - 1], defs);
      var s, rt, id :| ReadAs(x, r, keys[n - 1], vs[n - 1], s, rt, id) && Vhosts(defs)(vs[n - 1]) == Some(s);
      servers, routes, ids := servers + [s], routes + [rt], ids + [id];
    }
  }

  function VhostKeys(e: Export): seq<ListenKey>
    requires forall j :: 0 <= j < |e.at| ==> e.at[j] < |e.order|
  {
    seq(|e.at|, j requires 0 <= j < |e.at| => e.order[e.at[j]])
  }

  lemma AllReadable(x: Syntax, r: Router, e: Export, defs: map<string, Def>)
    requires RouterOk(x, r) && VhostsExported(x, r, e) && DefsFor(defs, r, e.order)
    ensures forall j :: 0 <= j < |e.at| ==> Readable(x, r, VhostKeys(e)[j], e.wire.vhosts[j], defs)
  {
    forall j | 0 <= j < |e.at| ensures Readable(x, r, VhostKeys(e)[j], e.wire.vhosts[j], defs) {
      ReadableAt(x, r, e, defs, j);
    }
  }

  lemma ReadableAt(x: Syntax, r: Router, e: Export, defs: map<string, Def>, j: nat)
    requires RouterOk(x, r) && VhostsExported(x, r, e) && DefsFor(defs, r, e.order) && j < |e.at|
    ensures Readable(x, r, e.order[e.at[j]], e.wire.vhosts[j], defs)
  {
    var s, rt, id := ReadVhost(x, r, e, defs, j);
  }

  lemma ReadVhosts(x: Syntax, r: Router, e: Export, defs: map<string, Def>)
    returns (servers: seq<Server<WireRoute>>, routes: seq<Routes>, ids: seq<Option<TlsIdentity>>)
    requires RouterOk(x, r) && VhostsExported(x, r, e) && DefsFor(defs, r, e.order)
    ensures Reading(x, r, e, servers, routes, ids) && Each(Vhosts(defs), e.wire.vhosts) == Some(servers)
  {
    AllReadable(x, r, e, defs);
    servers, routes, ids := ReadFirst(x, r, VhostKeys(e), e.wire.vhosts, defs, |e.at|);
    EachIs(Vhosts(defs), e.wire.vhosts, servers);
  }

  function Protocols(r: Router): ListenKey -> Protocol { k => Control.ProtocolAt(r, k) }

  function AllSettings(r: Router): ListenKey -> TlsSettings { k => SettingsAt(r, k) }

  lemma StandingIsStable(x: Syntax, r: Router, key: ListenKey, v: WireVhost, routes: Routes,
                         identity: Option<TlsIdentity>, good: RouteProperty)
    requires StableRouter(r) && StandsFor(x, r, key, v, routes, identity, good)
    ensures StableRoutes(routes, r.upstreams)
  {
    assert StableHosts(r.listeners[key], r.upstreams);
  }

  lemma ServerReads(x: Syntax, r: Router, key: ListenKey, v: WireVhost, s: Server<WireRoute>, routes: Routes,
                    identity: Option<TlsIdentity>, next: nat)
    requires StableRouter(r) && ReadAs(x, r, key, v, s, routes, identity)
    ensures ServerRoutes(WireFrontend(x), Bare(r).router, next, s).Ok?
    ensures Contents(ServerRoutes(WireFrontend(x), Bare(r).router, next, s).value) == Contents(routes)
    ensures Consistent(s, Protocols(r), AllSettings(r)) && BodyTimeoutOk(s, r.options)
  {
    StandingIsStable(x, r, key, v, routes, identity, Good(x, r));
    assert Good(x, r)(key, routes);
    BlockReads(x, r, key, routes, v, identity, next);
    BodyReads(x, r, key, routes, v, identity);
  }

  lemma ServersRead(x: Syntax, r: Router, e: Export, servers: seq<Server<WireRoute>>, routes: seq<Routes>,
                    ids: seq<Option<TlsIdentity>>)
    requires StableRouter(r) && Reading(x, r, e, servers, routes, ids)
    ensures AllSingle(servers)
    ensures forall j, next :: 0 <= j < |servers| ==> ServerRoutes(WireFrontend(x), Bare(r).router, next, servers[j]).Ok?
    ensures forall j :: 0 <= j < |servers| ==>
                          Consistent(servers[j], Protocols(r), AllSettings(r)) && BodyTimeoutOk(servers[j], r.options)
  {
    forall j, next | 0 <= j < |servers| ensures ServerRoutes(WireFrontend(x), Bare(r).router, next, servers[j]).Ok? {
      ServerReads(x, r, e.order[e.at[j]], e.wire.vhosts[j], servers[j], routes[j], ids[j], next);
    }
    forall j | 0 <= j < |servers| ensures Consistent(servers[j], Protocols(r), AllSettings(r))
                                          && BodyTimeoutOk(servers[j], r.options) {
      ServerReads(x, r, e.order[e.at[j]], e.wire.vhosts[j], servers[j], routes[j], ids[j], 0);
    }
  }

  /** `again` is the router the blocks compile to. */
  ghost predicate Again(x: Syntax, r: Router, servers: seq<Server<WireRoute>>, again: Router) {
    AllSingle(servers) && AddServers(WireFrontend(x), Bare(r), servers).Ok?
    && again == AddServers(WireFrontend(x), Bare(r), servers).value.router
  }

  /** A stable router's export is accepted, with the same listeners, protocols and TLS settings. */
  lemma ExportAccepted(x: Syntax, r: Router, e: Export, servers: seq<Server<WireRoute>>, routes: seq<Routes>,
                       ids: seq<Option<TlsIdentity>>)
    returns (again: Router)
    requires Faithful(x) && RouterOk(x, r) && StableRouter(r) && Exports(x, r, e)
    requires Reading(x, r, e, servers, routes, ids) && Servers(x, e.wire) == Some(servers)
    ensures Again(x, r, servers, again)
    ensures Accept(x, e.wire) == Some(again) && Transports(again, Protocols(r), AllSettings(r))
    ensures again.listeners.Keys == Keys(servers) && SameSettings(r, again)
  {
    FrameRoundTrip(x, r, e);
    ServersRead(x, r, e, servers, routes, ids);
    AcceptedTogether(WireFrontend(x), Bare(r), servers, Protocols(r), AllSettings(r));
    again := AddServers(WireFrontend(x), Bare(r), servers).value.router;
    BuildKeepsSettings(WireFrontend(x), Bare(r), servers);
    AcceptFrom(x, e.wire, Bare(r), servers, again);
  }

  lemma AcceptFrom(x: Syntax, w: Wire, b: Build, servers: seq<Server<WireRoute>>, again: Router)
    requires FrameOf(x, w).Some? && FrameOf(x, w).value.build == b && Servers(x, w) == Some(servers)
    requires AddServers(WireFrontend(x), b, servers).Ok?
    requires again == AddServers(WireFrontend(x), b, servers).value.router
    requires HeaderTimeoutOk(again.options)
    requires forall j :: 0 <= j < |servers| ==> BodyTimeoutOk(servers[j], again.options)
    ensures Accept(x, w) == Some(again)
  {
  }

  // ---- the router read again is the router exported ----

  ghost predicate SameHosts(h: VirtualHosts, g: VirtualHosts) {
    && h.named.Keys == g.named.Keys && (forall n :: n in h.named ==> Contents(h.named[n]) == Contents(g.named[n]))
    && (h.default.Some? <==> g.default.Some?)
    && (h.default.Some? ==> Contents(h.default.value) == Contents(g.default.value))
  }

  /** Whatever number it starts from, block `j` compiles to the contents of any routes it may stand for. */
  lemma BlockAgain(x: Syntax, r: Router, e: Export, servers: seq<Server<WireRoute>>, routes: seq<Routes>,
                   ids: seq<Option<TlsIdentity>>, j: nat, rt: Routes)
    requires Reading(x, r, e, servers, routes, ids) && j < |servers|
    requires AddServers(WireFrontend(x), Bare(r), servers).Ok?
    requires GoodRoutes(x, r, e.order[e.at[j]], rt) && StableRoutes(rt, r.upstreams)
    requires e.wire.vhosts[j].routes == ExportRoutes(x, rt)
    ensures Contents(Blocks(WireFrontend(x), Bare(r), servers)[j]) == Contents(rt)
  {
    var next := BlockCompiled(WireFrontend(x), Bare(r), servers, j);
    var v := e.wire.vhosts[j];
    assert ReadAs(x, r, e.order[e.at[j]], v, servers[j], routes[j], ids[j]);
    BlockReads(x, r, e.order[e.at[j]], rt, v, ids[j], next);
  }

  lemma KeyOfBlock(x: Syntax, r: Router, e: Export, servers: seq<Server<WireRoute>>, routes: seq<Routes>,
                   ids: seq<Option<TlsIdentity>>, j: nat, i: nat)
    requires Reading(x, r, e, servers, routes, ids) && j < |servers| && i < |e.order|
    ensures Single(servers[j]) && (KeyOf(servers[j]) == e.order[i] <==> e.at[j] == i)
    ensures ListedOn(servers[j].listens, e.order[i]) <==> e.at[j] == i
    ensures DefaultOn(servers[j].listens, e.order[i]) <==> e.at[j] == i && e.wire.vhosts[j].default
    ensures servers[j].names == e.wire.vhosts[j].names
    ensures servers[j].listens[0].defaultServer == e.wire.vhosts[j].default
    ensures IdentityOf(servers[j], r.letsEncrypt) == ids[j]
  {
    SingleListed(servers[j], e.order[i]);
    assert ReadAs(x, r, e.order[e.at[j]], e.wire.vhosts[j], servers[j], routes[j], ids[j]);
  }

  /** A name read again is one of the exported names. */
  lemma NameReadAgain(x: Syntax, r: Router, e: Export, servers: seq<Server<WireRoute>>, routes: seq<Routes>,
                      ids: seq<Option<TlsIdentity>>, j: nat, n: string)
    requires Reading(x, r, e, servers, routes, ids) && j < |servers|
    ensures n in NameSet(servers[j].names) <==> n in e.wire.vhosts[j].names
  {
    var v := e.wire.vhosts[j];
    assert ReadAs(x, r, e.order[e.at[j]], v, servers[j], routes[j], ids[j]);
    if n in v.names {
      var m :| 0 <= m < |v.names| && v.names[m] == n;
      assert NormalName(v.names[m]) && Normalize(servers[j].names[m]) == n;
    }
    if n in NameSet(servers[j].names) {
      var m :| 0 <= m < |servers[j].names| && n == Normalize(servers[j].names[m]);
      assert NormalName(v.names[m]);
    }
  }

  /** The names of listener `i` are there again, and no others. */
  lemma NamesAgain(x: Syntax, r: Router, e: Export, servers: seq<Server<WireRoute>>, routes: seq<Routes>,
                   ids: seq<Option<TlsIdentity>>, i: nat, n: string)
    requires Reading(x, r, e, servers, routes, ids) && i < |e.order|
    requires e.order[i] in r.listeners
    requires HostsExported(x, e.wire.vhosts, e.at, i, r.listeners[e.order[i]], TlsOption(r, e.order[i]))
    ensures n in Owners(servers, e.order[i]) <==> n in r.listeners[e.order[i]].named
    ensures n in Owners(servers, e.order[i]) ==>
              var j := Owners(servers, e.order[i])[n];
              j < |servers| && e.at[j] == i && n in e.wire.vhosts[j].names
  {
    var key := e.order[i];
    if n in r.listeners[key].named {
      var j :| 0 <= j < |e.wire.vhosts| && e.at[j] == i && n in e.wire.vhosts[j].names;
      KeyOfBlock(x, r, e, servers, routes, ids, j, i);
      NameReadAgain(x, r, e, servers, routes, ids, j, n);
      OwnersHave(servers, key, j, n);
    }
    if n in Owners(servers, key) {
      OwnerLists(servers, key, n);
      var j := Owners(servers, key)[n];
      KeyOfBlock(x, r, e, servers, routes, ids, j, i);
      NameReadAgain(x, r, e, servers, routes, ids, j, n);
    }
  }

  lemma HostsFollow(x: Syntax, r: Router, servers: seq<Server<WireRoute>>, again: Router, key: ListenKey)
    requires Again(x, r, servers, again)
    ensures Follows(HostsAt(again, key).named, Owners(servers, key), Blocks(WireFrontend(x), Bare(r), servers))
  {
    RoutesFollowOwners(WireFrontend(x), Bare(r), servers, key);
  }

  /** So are its named routes. */
  lemma NamedAgain(x: Syntax, r: Router, e: Export, servers: seq<Server<WireRoute>>, routes: seq<Routes>,
                   ids: seq<Option<TlsIdentity>>, again: Router, i: nat, n: string)
    requires Reading(x, r, e, servers, routes, ids) && Again(x, r, servers, again) && i < |e.order|
    requires e.order[i] in r.listeners
    requires HostsExported(x, e.wire.vhosts, e.at, i, r.listeners[e.order[i]], TlsOption(r, e.order[i]))
    requires HostsSatisfy(e.order[i], r.listeners[e.order[i]], Good(x, r))
    requires StableHosts(r.listeners[e.order[i]], r.upstreams)
    ensures n in HostsAt(again, e.order[i]).named <==> n in r.listeners[e.order[i]].named
    ensures n in r.listeners[e.order[i]].named
            ==> Contents(HostsAt(again, e.order[i]).named[n]) == Contents(r.listeners[e.order[i]].named[n])
  {
    var key := e.order[i];
    HostsFollow(x, r, servers, again, key);
    NamesAgain(x, r, e, servers, routes, ids, i, n);
    if n in r.listeners[key].named {
      var j := Owners(servers, key)[n];
      ExportedName(x, e.wire.vhosts, e.at, i, r.listeners[key], TlsOption(r, key), j, n);
      NamedBlockAgain(x, r, e, servers, routes, ids, i, j, n);
    }
  }

  lemma ExportedName(x: Syntax, vs: seq<WireVhost>, at: seq<nat>, i: nat, hosts: VirtualHosts, tls: Option<ListenerTls>,
                     j: nat, n: string)
    requires |at| == |vs| && HostsExported(x, vs, at, i, hosts, tls) && j < |vs| && at[j] == i && n in vs[j].names
    ensures n in hosts.named && vs[j].routes == ExportRoutes(x, hosts.named[n]) && vs[j].tls == NameBinding(tls, n)
  {
  }

  lemma NamedIsGood(x: Syntax, r: Router, key: ListenKey, hosts: VirtualHosts, n: string)
    requires HostsSatisfy(key, hosts, Good(x, r)) && StableHosts(hosts, r.upstreams) && n in hosts.named
    ensures GoodRoutes(x, r, key, hosts.named[n]) && StableRoutes(hosts.named[n], r.upstreams)
  {
    assert Good(x, r)(key, hosts.named[n]);
  }

  lemma NamedBlockAgain(x: Syntax, r: Router, e: Export, servers: seq<Server<WireRoute>>, routes: seq<Routes>,
                        ids: seq<Option<TlsIdentity>>, i: nat, j: nat, n: string)
    requires Reading(x, r, e, servers, routes, ids) && AddServers(WireFrontend(x), Bare(r), servers).Ok?
    requires i < |e.order|
    requires e.order[i] in r.listeners && n in r.listeners[e.order[i]].named && j < |servers| && e.at[j] == i
    requires HostsSatisfy(e.order[i], r.listeners[e.order[i]], Good(x, r))
    requires StableHosts(r.listeners[e.order[i]], r.upstreams)
    requires e.wire.vhosts[j].routes == ExportRoutes(x, r.listeners[e.order[i]].named[n])
    ensures Contents(Blocks(WireFrontend(x), Bare(r), servers)[j]) == Contents(r.listeners[e.order[i]].named[n])
  {
    NamedIsGood(x, r, e.order[i], r.listeners[e.order[i]], n);
    BlockAgain(x, r, e, servers, routes, ids, j, r.listeners[e.order[i]].named[n]);
  }

  lemma OneDefaultAgain(x: Syntax, r: Router, e: Export, servers: seq<Server<WireRoute>>, routes: seq<Routes>,
                        ids: seq<Option<TlsIdentity>>, i: nat, d: nat)
    requires Reading(x, r, e, servers, routes, ids) && AllSingle(servers) && i < |e.order|
    requires e.order[i] in r.listeners
    requires HostsExported(x, e.wire.vhosts, e.at, i, r.listeners[e.order[i]], TlsOption(r, e.order[i]))
    requires r.listeners[e.order[i]].default.Some?
    requires DefaultExported(x, e.wire.vhosts, e.at, i, r.listeners[e.order[i]].default.value,
                             TlsOption(r, e.order[i]), d)
    ensures OneDefault(servers, e.order[i], d)
  {
    KeyOfBlock(x, r, e, servers, routes, ids, d, i);
    forall j | 0 <= j < |servers| && j != d && ListedOn(servers[j].listens, e.order[i])
      ensures Ordinary(servers[j], e.order[i]) {
      KeyOfBlock(x, r, e, servers, routes, ids, j, i);
    }
  }

  /** So is its default. */
  lemma DefaultAgain(x: Syntax, r: Router, e: Export, servers: seq<Server<WireRoute>>, routes: seq<Routes>,
                     ids: seq<Option<TlsIdentity>>, again: Router, i: nat)
    requires Reading(x, r, e, servers, routes, ids) && Again(x, r, servers, again) && i < |e.order|
    requires e.order[i] in r.listeners
    requires HostsExported(x, e.wire.vhosts, e.at, i, r.listeners[e.order[i]], TlsOption(r, e.order[i]))
    requires HostsSatisfy(e.order[i], r.listeners[e.order[i]], Good(x, r))
    requires StableHosts(r.listeners[e.order[i]], r.upstreams)
    ensures HostsAt(again, e.order[i]).default.Some? <==> r.listeners[e.order[i]].default.Some?
    ensures r.listeners[e.order[i]].default.Some?
            ==> Contents(HostsAt(again, e.order[i]).default.value) == Contents(r.listeners[e.order[i]].default.value)
  {
    var fe, key := WireFrontend(x), e.order[i];
    var hosts := r.listeners[key];
    DefaultIs(fe, Bare(r), servers, key);
    if hosts.default.Some? {
      var d :| DefaultExported(x, e.wire.vhosts, e.at, i, hosts.default.value, TlsOption(r, key), d);
      OneDefaultAgain(x, r, e, servers, routes, ids, i, d);
      OneDefaultWins(servers, Blocks(fe, Bare(r), servers), r.letsEncrypt, key, d);
      assert Good(x, r)(key, hosts.default.value);
      BlockAgain(x, r, e, servers, routes, ids, d, hosts.default.value);
    } else {
      forall j | 0 <= j < |servers| && ListedOn(servers[j].listens, key) ensures Ordinary(servers[j], key) {
        KeyOfBlock(x, r, e, servers, routes, ids, j, i);
      }
      NoDefault(servers, Blocks(fe, Bare(r), servers), key);
    }
  }

  // ---- and so are its certificates ----

  lemma CertifiedAgain(x: Syntax, r: Router, e: Export, servers: seq<Server<WireRoute>>, routes: seq<Routes>,
                       ids: seq<Option<TlsIdentity>>, i: nat)
    requires Reading(x, r, e, servers, routes, ids) && i < |e.order| && e.order[i].ssl
    ensures Certified(servers, e.order[i])
  {
    forall j | 0 <= j < |servers| && ListedOn(servers[j].listens, e.order[i]) ensures servers[j].provider.Some? {
      KeyOfBlock(x, r, e, servers, routes, ids, j, i);
      assert ReadAs(x, r, e.order[e.at[j]], e.wire.vhosts[j], servers[j], routes[j], ids[j]);
    }
  }

  /** The certificate block `j` is read with is the one it was exported with. */
  lemma CertReadAgain(x: Syntax, r: Router, e: Export, servers: seq<Server<WireRoute>>, routes: seq<Routes>,
                      ids: seq<Option<TlsIdentity>>, j: nat, identity: Option<TlsIdentity>)
    requires Reading(x, r, e, servers, routes, ids) && j < |servers| && e.wire.vhosts[j].tls == Binding(identity)
    ensures IdentityOf(servers[j], r.letsEncrypt) == identity
  {
    KeyOfBlock(x, r, e, servers, routes, ids, j, e.at[j]);
    assert ReadAs(x, r, e.order[e.at[j]], e.wire.vhosts[j], servers[j], routes[j], ids[j]);
  }

  lemma CertsFollow(x: Syntax, r: Router, servers: seq<Server<WireRoute>>, again: Router, key: ListenKey)
    requires Again(x, r, servers, again) && key.ssl && Certified(servers, key)
    ensures Follows(TlsNames(again, key), Owners(servers, key), Certs(servers, r.letsEncrypt))
    ensures TlsDefault(again, key) == DefaultCert(servers, r.letsEncrypt, key)
  {
    CertsFollowOwners(WireFrontend(x), Bare(r), servers, key);
    DefaultCertIs(WireFrontend(x), Bare(r), servers, key);
  }

  lemma NamedCertAgain(x: Syntax, r: Router, e: Export, servers: seq<Server<WireRoute>>, routes: seq<Routes>,
                       ids: seq<Option<TlsIdentity>>, again: Router, i: nat, n: string)
    requires Reading(x, r, e, servers, routes, ids) && Again(x, r, servers, again) && i < |e.order| && e.order[i].ssl
    requires e.order[i] in r.listeners
    requires HostsExported(x, e.wire.vhosts, e.at, i, r.listeners[e.order[i]], TlsOption(r, e.order[i]))
    requires e.order[i] in r.tls && r.tls[e.order[i]].named.Keys == r.listeners[e.order[i]].named.Keys
    ensures n in TlsNames(again, e.order[i]) <==> n in r.tls[e.order[i]].named
    ensures n in r.tls[e.order[i]].named ==> TlsNames(again, e.order[i])[n] == r.tls[e.order[i]].named[n]
  {
    var key := e.order[i];
    CertifiedAgain(x, r, e, servers, routes, ids, i);
    CertsFollow(x, r, servers, again, key);
    NamesAgain(x, r, e, servers, routes, ids, i, n);
    if n in r.tls[key].named {
      var j := Owners(servers, key)[n];
      ExportedName(x, e.wire.vhosts, e.at, i, r.listeners[key], TlsOption(r, key), j, n);
      CertReadAgain(x, r, e, servers, routes, ids, j, Some(r.tls[key].named[n]));
    }
  }

  lemma DefaultCertAgain(x: Syntax, r: Router, e: Export, servers: seq<Server<WireRoute>>, routes: seq<Routes>,
                         ids: seq<Option<TlsIdentity>>, again: Router, i: nat)
    requires Reading(x, r, e, servers, routes, ids) && Again(x, r, servers, again) && i < |e.order| && e.order[i].ssl
    requires e.order[i] in r.listeners
    requires HostsExported(x, e.wire.vhosts, e.at, i, r.listeners[e.order[i]], TlsOption(r, e.order[i]))
    requires e.order[i] in r.tls && r.tls[e.order[i]].default.Some? && r.listeners[e.order[i]].default.Some?
    ensures TlsDefault(again, e.order[i]) == r.tls[e.order[i]].default
  {
    var key := e.order[i];
    CertifiedAgain(x, r, e, servers, routes, ids, i);
    CertsFollow(x, r, servers, again, key);
    var d :| DefaultExported(x, e.wire.vhosts, e.at, i, r.listeners[key].default.value, TlsOption(r, key), d);
    OneDefaultAgain(x, r, e, servers, routes, ids, i, d);
    CertReadAgain(x, r, e, servers, routes, ids, d, r.tls[key].default);
    OneDefaultWins(servers, Blocks(WireFrontend(x), Bare(r), servers), r.letsEncrypt, key, d);
  }

  // ---- the round trip ----

  /** The same listener, apart from route ids, and from the fallback certificate where there is no default host. */
  ghost predicate SameListener(r: Router, again: Router, key: ListenKey) {
    && key in r.listeners && key in again.listeners && SameHosts(r.listeners[key], again.listeners[key])
    && (key in r.tls <==> key in again.tls)
    && (key in r.tls ==>
          && again.tls[key].settings == r.tls[key].settings && again.tls[key].named == r.tls[key].named
          && (r.listeners[key].default.Some? ==> again.tls[key].default == r.tls[key].default))
  }

  ghost predicate SameRouter(r: Router, again: Router) {
    && SameSettings(r, again) && Control.RestartFingerprint(again) == Control.RestartFingerprint(r)
    && again.listeners.Keys == r.listeners.Keys && forall k :: k in r.listeners ==> SameListener(r, again, k)
  }

  /** One name of a host table, seen twice. */
  ghost predicate SameName(h: map<string, Routes>, g: map<string, Routes>, n: string) {
    (n in g <==> n in h) && (n in h && n in g ==> Contents(g[n]) == Contents(h[n]))
  }

  lemma SameNames(h: VirtualHosts, g: VirtualHosts)
    requires (forall n :: SameName(h.named, g.named, n)) && (g.default.Some? <==> h.default.Some?)
    requires h.default.Some? ==> Contents(g.default.value) == Contents(h.default.value)
    ensures SameHosts(h, g)
  {
    forall n ensures n in h.named <==> n in g.named { assert SameName(h.named, g.named, n); }
    forall n | n in h.named ensures Contents(h.named[n]) == Contents(g.named[n]) {
      assert SameName(h.named, g.named, n);
    }
  }

  lemma SameHostsAgain(x: Syntax, r: Router, e: Export, servers: seq<Server<WireRoute>>, routes: seq<Routes>,
                       ids: seq<Option<TlsIdentity>>, again: Router, i: nat)
    requires Reading(x, r, e, servers, routes, ids) && Again(x, r, servers, again) && i < |e.order|
    requires e.order[i] in r.listeners
    requires HostsExported(x, e.wire.vhosts, e.at, i, r.listeners[e.order[i]], TlsOption(r, e.order[i]))
    requires HostsSatisfy(e.order[i], r.listeners[e.order[i]], Good(x, r))
    requires StableHosts(r.listeners[e.order[i]], r.upstreams)
    ensures SameHosts(r.listeners[e.order[i]], HostsAt(again, e.order[i]))
  {
    var h, g := r.listeners[e.order[i]], HostsAt(again, e.order[i]);
    forall n ensures SameName(h.named, g.named, n) {
      NamedAgain(x, r, e, servers, routes, ids, again, i, n);
    }
    DefaultAgain(x, r, e, servers, routes, ids, again, i);
    SameNames(h, g);
  }

  ghost predicate SameCert(h: map<string, TlsIdentity>, g: map<string, TlsIdentity>, n: string) {
    (n in g <==> n in h) && (n in h && n in g ==> g[n] == h[n])
  }

  lemma SameCertNames(h: map<string, TlsIdentity>, g: map<string, TlsIdentity>)
    requires forall n :: SameCert(h, g, n)
    ensures g == h
  {
    forall n ensures (n in g <==> n in h) && (n in h && n in g ==> g[n] == h[n]) { assert SameCert(h, g, n); }
  }

  lemma SameCertsAgain(x: Syntax, r: Router, e: Export, servers: seq<Server<WireRoute>>, routes: seq<Routes>,
                       ids: seq<Option<TlsIdentity>>, again: Router, i: nat)
    requires Reading(x, r, e, servers, routes, ids) && Again(x, r, servers, again) && i < |e.order| && e.order[i].ssl
    requires e.order[i] in r.listeners
    requires HostsExported(x, e.wire.vhosts, e.at, i, r.listeners[e.order[i]], TlsOption(r, e.order[i]))
    requires e.order[i] in r.tls && r.tls[e.order[i]].named.Keys == r.listeners[e.order[i]].named.Keys
    ensures TlsNames(again, e.order[i]) == r.tls[e.order[i]].named
  {
    var these, those := r.tls[e.order[i]].named, TlsNames(again, e.order[i]);
    forall n ensures SameCert(these, those, n) {
      NamedCertAgain(x, r, e, servers, routes, ids, again, i, n);
    }
    SameCertNames(these, those);
  }

  lemma KeyAgain(x: Syntax, r: Router, e: Export, servers: seq<Server<WireRoute>>, routes: seq<Routes>,
                 ids: seq<Option<TlsIdentity>>, i: nat)
    requires Reading(x, r, e, servers, routes, ids) && AllSingle(servers) && i < |e.order| && e.order[i] in r.listeners
    requires HasHosts(r.listeners[e.order[i]])
    requires HostsExported(x, e.wire.vhosts, e.at, i, r.listeners[e.order[i]], TlsOption(r, e.order[i]))
    ensures e.order[i] in Keys(servers)
  {
    var j := SomeVhost(x, e.wire.vhosts, e.at, i, r.listeners[e.order[i]], TlsOption(r, e.order[i]));
    KeyOfBlock(x, r, e, servers, routes, ids, j, i);
    KeysHave(servers, j, 0);
  }

  lemma KeyListed(x: Syntax, r: Router, e: Export, servers: seq<Server<WireRoute>>, routes: seq<Routes>,
                  ids: seq<Option<TlsIdentity>>, k: ListenKey)
    requires Reading(x, r, e, servers, routes, ids) && AllSingle(servers) && k in Keys(servers)
    ensures k in r.listeners
  {
    var j, l := KeyFrom(servers, k);
    assert ReadAs(x, r, e.order[e.at[j]], e.wire.vhosts[j], servers[j], routes[j], ids[j]);
  }

  /** Every listener was exported with at least one virtual host. */
  lemma KeysAgain(x: Syntax, r: Router, e: Export, servers: seq<Server<WireRoute>>, routes: seq<Routes>,
                  ids: seq<Option<TlsIdentity>>)
    requires Reading(x, r, e, servers, routes, ids) && AllSingle(servers) && Lists(e.order, r.listeners.Keys)
    requires forall i :: 0 <= i < |e.order| ==> e.order[i] in Keys(servers)
    ensures Keys(servers) == r.listeners.Keys
  {
    forall k | k in r.listeners ensures k in Keys(servers) {
      var i :| 0 <= i < |e.order| && e.order[i] == k;
    }
    forall k | k in Keys(servers) ensures k in r.listeners {
      KeyListed(x, r, e, servers, routes, ids, k);
    }
  }

  lemma AllKeysAgain(x: Syntax, r: Router, e: Export, servers: seq<Server<WireRoute>>, routes: seq<Routes>,
                     ids: seq<Option<TlsIdentity>>)
    requires RouterOk(x, r) && VhostsExported(x, r, e) && Reading(x, r, e, servers, routes, ids) && AllSingle(servers)
    ensures forall i :: 0 <= i < |e.order| ==> e.order[i] in Keys(servers)
  {
    forall i | 0 <= i < |e.order| ensures e.order[i] in Keys(servers) {
      ExportAt(x, r, e, i);
      KeyAgain(x, r, e, servers, routes, ids, i);
    }
  }

  lemma SomeVhost(x: Syntax, vs: seq<WireVhost>, at: seq<nat>, i: nat, hosts: VirtualHosts, tls: Option<ListenerTls>)
    returns (j: nat)
    requires |at| == |vs| && HostsExported(x, vs, at, i, hosts, tls) && HasHosts(hosts)
    ensures j < |vs| && at[j] == i
  {
    if hosts.default.Some? {
      j :| DefaultExported(x, vs, at, i, hosts.default.value, tls, j);
    } else {
      var n :| n in hosts.named;
      j :| 0 <= j < |vs| && at[j] == i && n in vs[j].names;
    }
  }

  lemma SameFingerprint(r: Router, again: Router)
    requires WellKeyed(r) && SameSettings(r, again) && again.listeners.Keys == r.listeners.Keys
    requires Transports(again, Protocols(r), AllSettings(r))
    ensures Control.RestartFingerprint(again) == Control.RestartFingerprint(r)
  {
    var f, g := Control.RestartFingerprint(r).listeners, Control.RestartFingerprint(again).listeners;
    forall k | k in r.listeners ensures g[k] == f[k] {
      assert again.protocols[k] == Protocols(r)(k) && (k in again.tls ==> again.tls[k].settings == AllSettings(r)(k));
    }
    assert f == g;
  }

  lemma TlsAgain(x: Syntax, r: Router, e: Export, servers: seq<Server<WireRoute>>, routes: seq<Routes>,
                 ids: seq<Option<TlsIdentity>>, again: Router, i: nat)
    requires Reading(x, r, e, servers, routes, ids) && Again(x, r, servers, again) && i < |e.order| && e.order[i].ssl
    requires e.order[i] in r.listeners
    requires HostsExported(x, e.wire.vhosts, e.at, i, r.listeners[e.order[i]], TlsOption(r, e.order[i]))
    requires e.order[i] in r.tls && r.tls[e.order[i]].named.Keys == r.listeners[e.order[i]].named.Keys
    requires r.tls[e.order[i]].default.Some?
    ensures TlsNames(again, e.order[i]) == r.tls[e.order[i]].named
    ensures r.listeners[e.order[i]].default.Some? ==> TlsDefault(again, e.order[i]) == r.tls[e.order[i]].default
  {
    SameCertsAgain(x, r, e, servers, routes, ids, again, i);
    if r.listeners[e.order[i]].default.Some? { DefaultCertAgain(x, r, e, servers, routes, ids, again, i); }
  }

  lemma SameListenerFrom(r: Router, again: Router, key: ListenKey, good: RouteProperty)
    requires key in r.listeners && ListenerOk(r, key, good) && again.listeners.Keys == r.listeners.Keys
    requires SameHosts(r.listeners[key], HostsAt(again, key)) && Transports(again, Protocols(r), AllSettings(r))
    requires key.ssl && key in r.tls ==> TlsNames(again, key) == r.tls[key].named
    requires key.ssl && key in r.tls && r.listeners[key].default.Some? ==> TlsDefault(again, key) == r.tls[key].default
    ensures SameListener(r, again, key)
  {
    if key.ssl { assert again.tls[key].settings == AllSettings(r)(key); }
  }

  lemma ListenerAgain(x: Syntax, r: Router, e: Export, servers: seq<Server<WireRoute>>, routes: seq<Routes>,
                      ids: seq<Option<TlsIdentity>>, again: Router, i: nat)
    requires Reading(x, r, e, servers, routes, ids) && Again(x, r, servers, again) && i < |e.order|
    requires e.order[i] in r.listeners
    requires HostsExported(x, e.wire.vhosts, e.at, i, r.listeners[e.order[i]], TlsOption(r, e.order[i]))
    requires ListenerOk(r, e.order[i], Good(x, r)) && StableHosts(r.listeners[e.order[i]], r.upstreams)
    requires Transports(again, Protocols(r), AllSettings(r)) && again.listeners.Keys == r.listeners.Keys
    ensures SameListener(r, again, e.order[i])
  {
    var key := e.order[i];
    SameHostsAgain(x, r, e, servers, routes, ids, again, i);
    if key.ssl { TlsAgain(x, r, e, servers, routes, ids, again, i); }
    SameListenerFrom(r, again, key, Good(x, r));
  }

  lemma EachListenerAgain(x: Syntax, r: Router, e: Export, servers: seq<Server<WireRoute>>, routes: seq<Routes>,
                          ids: seq<Option<TlsIdentity>>, again: Router)
    requires RouterOk(x, r) && VhostsExported(x, r, e) && StableRouter(r) && Reading(x, r, e, servers, routes, ids)
    requires Again(x, r, servers, again)
    requires Transports(again, Protocols(r), AllSettings(r)) && again.listeners.Keys == r.listeners.Keys
    ensures forall i :: 0 <= i < |e.order| ==> SameListener(r, again, e.order[i])
  {
    forall i | 0 <= i < |e.order| ensures SameListener(r, again, e.order[i]) {
      ExportAt(x, r, e, i);
      ListenerAgain(x, r, e, servers, routes, ids, again, i);
    }
  }

  lemma ListenersAgain(r: Router, again: Router, order: seq<ListenKey>)
    requires Lists(order, r.listeners.Keys) && forall i :: 0 <= i < |order| ==> SameListener(r, again, order[i])
    ensures forall k :: k in r.listeners ==> SameListener(r, again, k)
  {
    forall k | k in r.listeners ensures SameListener(r, again, k) {
      var i :| 0 <= i < |order| && order[i] == k;
    }
  }

  /**
    * For every snapshot accepted from the wire whose router is stable, every export of the router is
    * accepted again, has the same restart fingerprint and settings, and gives every listener the same
    * named and default routes up to route ids, and the same certificates.
    */
  lemma SnapshotRoundTrip(x: Syntax, w: Wire, r: Router, e: Export) returns (again: Router)
    requires Faithful(x) && Accept(x, w) == Some(r) && StableRouter(r) && Exports(x, r, e)
    ensures Accept(x, e.wire) == Some(again) && SameRouter(r, again)
  {
    AcceptedIsOk(x, w);
    again := OkRoundTrip(x, r, e);
  }

  lemma OkRoundTrip(x: Syntax, r: Router, e: Export) returns (again: Router)
    requires Faithful(x) && RouterOk(x, r) && StableRouter(r) && Exports(x, r, e)
    ensures Accept(x, e.wire) == Some(again) && SameRouter(r, again)
  {
    FrameRoundTrip(x, r, e);
    var servers, routes, ids := ReadVhosts(x, r, e, FrameOf(x, e.wire).value.defs);
    again := ExportAccepted(x, r, e, servers, routes, ids);
    AllKeysAgain(x, r, e, servers, routes, ids);
    KeysAgain(x, r, e, servers, routes, ids);
    SameFingerprint(r, again);
    EachListenerAgain(x, r, e, servers, routes, ids, again);
    ListenersAgain(r, again, e.order);
  }

  // ---- stability is necessary ----

  /** A block that compiles back to the routes it was exported from was stable. */
  lemma BlockIsStable(x: Syntax, r: Router, key: ListenKey, rt: Routes, s: Server<WireRoute>, next: nat, block: Routes)
    requires GoodRoutes(x, r, key, rt) && s.locations == ExportRoutes(x, rt) && Contents(block) == Contents(rt)
    requires ServerRoutes(WireFrontend(x), Bare(r).router, next, s) == Ok(block)
    ensures StableRoutes(rt, r.upstreams)
  {
    forall i | 0 <= i < |rt| ensures StableTarget(rt[i].content.target, r.upstreams) {
      BlockContents(x, Bare(r).router, next, s, block, i);
      assert Contents(block)[i] == Contents(rt)[i] && s.locations[i] == WireRouteOf(x, rt[i].content);
      assert GoodContent(x, r, ListenAt(r, key), rt[i].content);
    }
  }

  lemma ServerIsStable(x: Syntax, r: Router, e: Export, servers: seq<Server<WireRoute>>, routes: seq<Routes>,
                       ids: seq<Option<TlsIdentity>>, j: nat, rt: Routes)
    requires Reading(x, r, e, servers, routes, ids) && j < |servers|
    requires AddServers(WireFrontend(x), Bare(r), servers).Ok?
    requires GoodRoutes(x, r, e.order[e.at[j]], rt) && e.wire.vhosts[j].routes == ExportRoutes(x, rt)
    requires Contents(Blocks(WireFrontend(x), Bare(r), servers)[j]) == Contents(rt)
    ensures StableRoutes(rt, r.upstreams)
  {
    var next := BlockCompiled(WireFrontend(x), Bare(r), servers, j);
    assert ReadAs(x, r, e.order[e.at[j]], e.wire.vhosts[j], servers[j], routes[j], ids[j]);
    BlockIsStable(x, r, e.order[e.at[j]], rt, servers[j], next, Blocks(WireFrontend(x), Bare(r), servers)[j]);
  }

  lemma NamedIsStable(x: Syntax, r: Router, e: Export, servers: seq<Server<WireRoute>>, routes: seq<Routes>,
                      ids: seq<Option<TlsIdentity>>, again: Router, i: nat, n: string)
    requires Reading(x, r, e, servers, routes, ids) && Again(x, r, servers, again) && i < |e.order|
    requires e.order[i] in r.listeners
    requires HostsExported(x, e.wire.vhosts, e.at, i, r.listeners[e.order[i]], TlsOption(r, e.order[i]))
    requires n in r.listeners[e.order[i]].named && GoodRoutes(x, r, e.order[i], r.listeners[e.order[i]].named[n])
    requires SameHosts(r.listeners[e.order[i]], HostsAt(again, e.order[i]))
    ensures StableRoutes(r.listeners[e.order[i]].named[n], r.upstreams)
  {
    var key := e.order[i];
    HostsFollow(x, r, servers, again, key);
    NamesAgain(x, r, e, servers, routes, ids, i, n);
    var j := Owners(servers, key)[n];
    ExportedName(x, e.wire.vhosts, e.at, i, r.listeners[key], TlsOption(r, key), j, n);
    ServerIsStable(x, r, e, servers, routes, ids, j, r.listeners[key].named[n]);
  }

  lemma DefaultIsStable(x: Syntax, r: Router, e: Export, servers: seq<Server<WireRoute>>, routes: seq<Routes>,
                        ids: seq<Option<TlsIdentity>>, again: Router, i: nat)
    requires Reading(x, r, e, servers, routes, ids) && Again(x, r, servers, again) && i < |e.order|
    requires e.order[i] in r.listeners
    requires HostsExported(x, e.wire.vhosts, e.at, i, r.listeners[e.order[i]], TlsOption(r, e.order[i]))
    requires r.listeners[e.order[i]].default.Some?
    requires GoodRoutes(x, r, e.order[i], r.listeners[e.order[i]].default.value)
    requires SameHosts(r.listeners[e.order[i]], HostsAt(again, e.order[i]))
    ensures StableRoutes(r.listeners[e.order[i]].default.value, r.upstreams)
  {
    var fe, key := WireFrontend(x), e.order[i];
    var rt := r.listeners[key].default.value;
    DefaultIs(fe, Bare(r), servers, key);
    var d :| DefaultExported(x, e.wire.vhosts, e.at, i, rt, TlsOption(r, key), d);
    OneDefaultAgain(x, r, e, servers, routes, ids, i, d);
    OneDefaultWins(servers, Blocks(fe, Bare(r), servers), r.letsEncrypt, key, d);
    ServerIsStable(x, r, e, servers, routes, ids, d, rt);
  }

  lemma HostsAreStable(x: Syntax, r: Router, e: Export, servers: seq<Server<WireRoute>>, routes: seq<Routes>,
                       ids: seq<Option<TlsIdentity>>, again: Router, i: nat)
    requires Reading(x, r, e, servers, routes, ids) && Again(x, r, servers, again) && i < |e.order|
    requires e.order[i] in r.listeners
    requires HostsExported(x, e.wire.vhosts, e.at, i, r.listeners[e.order[i]], TlsOption(r, e.order[i]))
    requires HostsSatisfy(e.order[i], r.listeners[e.order[i]], Good(x, r))
    requires SameHosts(r.listeners[e.order[i]], HostsAt(again, e.order[i]))
    ensures StableHosts(r.listeners[e.order[i]], r.upstreams)
  {
    var key := e.order[i];
    forall n | n in r.listeners[key].named ensures StableRoutes(r.listeners[key].named[n], r.upstreams) {
      assert Good(x, r)(key, r.listeners[key].named[n]);
      NamedIsStable(x, r, e, servers, routes, ids, again, i, n);
    }
    if r.listeners[key].default.Some? {
      assert Good(x, r)(key, r.listeners[key].default.value);
      DefaultIsStable(x, r, e, servers, routes, ids, again, i);
    }
  }

  lemma AcceptedServers(x: Syntax, r: Router, e: Export, again: Router)
    returns (servers: seq<Server<WireRoute>>, routes: seq<Routes>, ids: seq<Option<TlsIdentity>>)
    requires Faithful(x) && RouterOk(x, r) && Exports(x, r, e) && Accept(x, e.wire) == Some(again)
    ensures Reading(x, r, e, servers, routes, ids) && Again(x, r, servers, again)
  {
    FrameRoundTrip(x, r, e);
    servers, routes, ids := ReadVhosts(x, r, e, FrameOf(x, e.wire).value.defs);
    AllReadSingle(x, r, e, servers, routes, ids);
  }

  lemma AllReadSingle(x: Syntax, r: Router, e: Export, servers: seq<Server<WireRoute>>, routes: seq<Routes>,
                      ids: seq<Option<TlsIdentity>>)
    requires Reading(x, r, e, servers, routes, ids)
    ensures AllSingle(servers)
  {
    forall j | 0 <= j < |servers| ensures Single(servers[j]) {
      assert ReadAs(x, r, e.order[e.at[j]], e.wire.vhosts[j], servers[j], routes[j], ids[j]);
    }
  }

  lemma OkNeedsStability(x: Syntax, r: Router, e: Export, again: Router)
    requires Faithful(x) && RouterOk(x, r) && Exports(x, r, e) && Accept(x, e.wire) == Some(again)
    requires SameRouter(r, again)
    ensures StableRouter(r)
  {
    var servers, routes, ids := AcceptedServers(x, r, e, again);
    ListenersAreStable(x, r, e, servers, routes, ids, again);
  }

  lemma ListenersAreStable(x: Syntax, r: Router, e: Export, servers: seq<Server<WireRoute>>, routes: seq<Routes>,
                           ids: seq<Option<TlsIdentity>>, again: Router)
    requires RouterOk(x, r) && VhostsExported(x, r, e) && Reading(x, r, e, servers, routes, ids)
    requires Again(x, r, servers, again) && SameRouter(r, again)
    ensures StableRouter(r)
  {
    forall i | 0 <= i < |e.order| ensures e.order[i] in r.listeners
                                          && StableHosts(r.listeners[e.order[i]], r.upstreams) {
      ListenerIsStable(x, r, e, servers, routes, ids, again, i);
    }
    AllListedStable(r, e.order);
  }

  lemma AllListedStable(r: Router, order: seq<ListenKey>)
    requires Lists(order, r.listeners.Keys)
    requires forall i :: 0 <= i < |order| ==> order[i] in r.listeners && StableHosts(r.listeners[order[i]], r.upstreams)
    ensures StableRouter(r)
  {
    forall k | k in r.listeners ensures StableHosts(r.listeners[k], r.upstreams) {
      var i :| 0 <= i < |order| && order[i] == k;
    }
  }

  lemma ListenerIsStable(x: Syntax, r: Router, e: Export, servers: seq<Server<WireRoute>>, routes: seq<Routes>,
                         ids: seq<Option<TlsIdentity>>, again: Router, i: nat)
    requires RouterOk(x, r) && VhostsExported(x, r, e) && Reading(x, r, e, servers, routes, ids)
    requires Again(x, r, servers, again)
    requires i < |e.order| && e.order[i] in r.listeners && SameRouter(r, again)
    ensures StableHosts(r.listeners[e.order[i]], r.upstreams)
  {
    ExportAt(x, r, e, i);
    assert SameListener(r, again, e.order[i]);
    HostsAreStable(x, r, e, servers, routes, ids, again, i);
  }

  /** The export of an accepted snapshot is read back as the same router exactly when the router is stable. */
  lemma RoundTripExactlyWhenStable(x: Syntax, w: Wire, r: Router, e: Export)
    requires Faithful(x) && Accept(x, w) == Some(r) && Exports(x, r, e)
    ensures (exists again :: Accept(x, e.wire) == Some(again) && SameRouter(r, again)) <==> StableRouter(r)
  {
    AcceptedIsOk(x, w);
    if StableRouter(r) {
      var again := OkRoundTrip(x, r, e);
    }
    if again :| Accept(x, e.wire) == Some(again) && SameRouter(r, again) {
      OkNeedsStability(x, r, e, again);
    }
  }
}

/** The parts of a snapshot message other than routes and virtual hosts: options, listeners, upstream groups. */
module WireParts {
  import opened Common
  import opened Config
  import opened WireRoute
  import ClientIp
  import Lexer

  // ---- trimming ----

  predicate Trimmed(s: string) { s != [] ==> !Lexer.IsWhitespace(s[0]) && !Lexer.IsWhitespace(s[|s| - 1]) }

  lemma {:induction false} TrimStartStops(s: string)
    ensures var t := ClientIp.TrimStart(s); t != [] ==> !Lexer.IsWhitespace(t[0])
  {
    if s != [] && Lexer.IsWhitespace(s[0]) { TrimStartStops(s[1..]); }
  }

  lemma {:induction false} TrimEndStops(s: string)
    ensures var t := ClientIp.TrimEnd(s); t <= s && (t != [] ==> !Lexer.IsWhitespace(t[|t| - 1]))
  {
    if s != [] && Lexer.IsWhitespace(s[|s| - 1]) { TrimEndStops(s[..|s| - 1]); }
  }

  lemma TrimTrims(s: string)
    ensures Trimmed(ClientIp.Trim(s)) && ClientIp.Trim(ClientIp.Trim(s)) == ClientIp.Trim(s)
    ensures ClientIp.Trim(s) != [] ==> !Lexer.Blank(ClientIp.Trim(s))
  {
    TrimStartStops(s);
    TrimEndStops(ClientIp.TrimStart(s));
    TrimFixes(ClientIp.Trim(s));
  }

  lemma TrimFixes(s: string)
    requires Trimmed(s)
    ensures ClientIp.Trim(s) == s
  {
    assert ClientIp.TrimStart(s) == s && ClientIp.TrimEnd(s) == s;
  }

  // ---- networks ----

  function Networks(x: Syntax): string -> Option<Network> { s => x.parseNetwork(s) }

  function NetworkTexts(x: Syntax): Network -> string { n => x.showNetwork(n) }

  lemma NetworksRoundTrip(x: Syntax, l: seq<Network>)
    requires Faithful(x)
    ensures Each(Networks(x), Map(NetworkTexts(x), l)) == Some(l)
  {
    EachBack(Networks(x), NetworkTexts(x), l);
  }

  // ---- HTTP options ----

  datatype WireRealIp = WireRealIp(trusted: seq<string>, header: string, recursive: Option<bool>)

  datatype WireOptions = WireOptions(
    keepalive: u64, tcpNodelay: bool, keepaliveRequests: u32, allowConnect: bool, h2c: bool, maxBody: u64,
    cacheMaxSize: u64,
    http2: Option<Http2>, realIp: Option<WireRealIp>, headerTimeout: Option<u64>, bodyTimeout: Option<u64>,
    sendTimeout: Option<u64>)

  const NoOptions := WireOptions(0, false, 0, false, false, 0, 0, None, None, None, None, None)

  function RealIpOf(x: Syntax, r: Option<WireRealIp>): Option<Option<RealIp>> {
    match r
    case None => Some(None)
    case Some(w) =>
      var header := if w.header == "" then "X-Forwarded-For" else w.header;
      match Each(Networks(x), w.trusted)
      case None => None
      case Some(l) =>
        if Lower(header) != "x-forwarded-for" && Lower(header) != "x-real-ip" then None
        else Some(Some(RealIp(l, header, if w.recursive.None? then true else w.recursive.value)))
  }

  function WireRealIpOf(x: Syntax, r: Option<RealIp>): Option<WireRealIp> {
    if r.None? then None else Some(WireRealIp(Map(NetworkTexts(x), r.value.trusted), r.value.header,
                                              Some(r.value.recursive)))
  }

  lemma RealIpRoundTrip(x: Syntax, r: Option<WireRealIp>)
    requires Faithful(x) && RealIpOf(x, r).Some?
    ensures RealIpOf(x, WireRealIpOf(x, RealIpOf(x, r).value)) == RealIpOf(x, r)
  {
    if r.Some? { NetworksRoundTrip(x, RealIpOf(x, r).value.value.trusted); }
  }

  predicate Http2Valid(h: Http2) {
    && (h.maxStreams.Some? ==> h.maxStreams.value != 0) && (h.maxHeaderList.Some? ==> h.maxHeaderList.value != 0)
    && (h.streamWindow.Some? ==> 0 < h.streamWindow.value <= 0x7FFF_FFFF)
    && (h.connectionWindow.Some? ==> 0 < h.connectionWindow.value <= 0x7FFF_FFFF)
  }

  function OptionsOf(x: Syntax, o: Option<WireOptions>): Option<HttpOptions> {
    var w := if o.None? then NoOptions else o.value;
    var http2 := if w.http2.None? then Http2(None, None, None, None) else w.http2.value;
    match RealIpOf(x, w.realIp)
    case None => None
    case Some(realIp) =>
      if !Http2Valid(http2) then None
      else Some(HttpOptions(realIp, w.headerTimeout, w.bodyTimeout, w.sendTimeout, NonZero64(w.keepalive),
                            NonZero32(w.keepaliveRequests),
                            NonZero64(w.maxBody), NonZero64(w.cacheMaxSize), true, w.allowConnect, w.h2c, http2))
  }

  function WireOptionsOf(x: Syntax, o: HttpOptions): WireOptions {
    WireOptions(OrZero64(o.keepalive), o.tcpNodelay, OrZero32(o.keepaliveRequests), o.allowConnect, o.h2c,
                OrZero64(o.maxBody), OrZero64(o.cacheMaxSize),
                Some(o.http2), WireRealIpOf(x, o.realIp), o.headerTimeout, o.bodyTimeout, o.sendTimeout)
  }

  lemma OptionsRoundTrip(x: Syntax, o: Option<WireOptions>)
    requires Faithful(x) && OptionsOf(x, o).Some?
    ensures OptionsOf(x, Some(WireOptionsOf(x, OptionsOf(x, o).value))) == OptionsOf(x, o)
  {
    RealIpRoundTrip(x, if o.None? then None else o.value.realIp);
  }

  // ---- GeoIP and Let's Encrypt ----

  datatype WireGeo = WireGeo(database: string, reload: Option<u64>, trusted: seq<string>)

  function GeoOf(x: Syntax, g: Option<WireGeo>): Option<Option<GeoIp>> {
    match g
    case None => Some(None)
    case Some(w) =>
      var reload: u64 := if w.reload.None? then 5000 else w.reload.value;
      match Each(Networks(x), w.trusted)
      case None => None
      case Some(l) => if w.database == "" || reload < 1 then None else Some(Some(GeoIp(w.database, reload, l)))
  }

  function WireGeoOf(x: Syntax, g: Option<GeoIp>): Option<WireGeo> {
    if g.None? then None else Some(WireGeo(g.value.database, Some(g.value.reloadInterval),
                                           Map(NetworkTexts(x), g.value.trusted)))
  }

  lemma GeoRoundTrip(x: Syntax, g: Option<WireGeo>)
    requires Faithful(x) && GeoOf(x, g).Some?
    ensures GeoOf(x, WireGeoOf(x, GeoOf(x, g).value)) == GeoOf(x, g)
  {
    if g.Some? { NetworksRoundTrip(x, GeoOf(x, g).value.value.trusted); }
  }

  datatype WireLe = WireLe(directory: string, email: string, cacheDir: string)

  function NonEmpty(s: string): Option<string> { if s == "" then None else Some(s) }

  function OrEmpty(s: Option<string>): string { if s.Some? then s.value else "" }

  function LeOf(w: Option<WireLe>): Option<LetsEncrypt> {
    if w.None? then None else Some(LetsEncrypt(NonEmpty(w.value.directory), NonEmpty(w.value.email),
                                               NonEmpty(w.value.cacheDir)))
  }

  function WireLeOf(l: Option<LetsEncrypt>): Option<WireLe> {
    if l.None? then None else Some(WireLe(OrEmpty(l.value.directory), OrEmpty(l.value.email),
                                          OrEmpty(l.value.cacheDir)))
  }

  lemma LeRoundTrip(w: Option<WireLe>)
    ensures LeOf(WireLeOf(LeOf(w))) == LeOf(w)
  {
  }

  // ---- listeners ----

  datatype WireListenerTls = WireListenerTls(min: int, max: int, verify: int, clientCert: Unset<PemSource>)

  datatype WireListener = WireListener(name: string, address: string, port: u32, tls: bool, http2: bool,
                                       http2Only: bool, options: Option<WireListenerTls>)

  const NoSettings := TlsSettings(None, VerifyOff, None)

  function VersionOf(code: int): Option<TlsVersion> {
    if code == 1 then Some(Tls1) else if code == 2 then Some(Tls12) else if code == 3 then Some(Tls13) else None
  }

  function VersionCode(v: TlsVersion): int { match v case Tls1 => 1 case Tls12 => 2 case Tls13 => 3 }

  function VerifyOf(code: int): VerifyClient {
    if code == 2 then VerifyOptional else if code == 3 then VerifyRequired else VerifyOff
  }

  function VerifyCode(v: VerifyClient): int {
    match v case VerifyOff => 1 case VerifyOptional => 2 case VerifyRequired => 3
  }

  function SettingsOf(o: Option<WireListenerTls>): Option<TlsSettings> {
    match o
    case None => Some(NoSettings)
    case Some(w) =>
      var min, max, cert := VersionOf(w.min), VersionOf(w.max), IfSet(w.clientCert);
      if min.Some? != max.Some? || cert.None? || (min.Some? && VersionCode(min.value) > VersionCode(max.value))
      then None
      else Some(TlsSettings(if min.Some? then Some((min.value, max.value)) else None, VerifyOf(w.verify), cert.value))
  }

  function WireSettingsOf(s: TlsSettings): WireListenerTls {
    WireListenerTls(if s.protocols.Some? then VersionCode(s.protocols.value.0) else 0, if s.protocols.Some?
                    then VersionCode(s.protocols.value.1) else 0,
                    VerifyCode(s.verifyClient), Sent(s.clientCertificate))
  }

  lemma SettingsRoundTrip(o: Option<WireListenerTls>)
    requires SettingsOf(o).Some?
    ensures SettingsOf(Some(WireSettingsOf(SettingsOf(o).value))) == SettingsOf(o)
  {
    SentIsSet(SettingsOf(o).value.clientCertificate);
  }

  datatype Def = Def(key: ListenKey, protocol: Protocol, settings: TlsSettings)

  function DefOf(x: Syntax, l: WireListener): Option<Def> {
    var addr, settings := x.parseIp(l.address), SettingsOf(l.options);
    if addr.None? || l.port > 65535 || settings.None? || (!l.tls && settings.value != NoSettings) then None
    else Some(Def(ListenKey(addr.value, l.port, l.tls), Protocol(l.http2, l.http2Only), settings.value))
  }

  /** Listeners by their trimmed names, which must be there and differ. */
  function DefsOf(x: Syntax, ls: seq<WireListener>): Option<map<string, Def>> {
    if ls == [] then Some(map[])
    else
      var l := ls[|ls| - 1];
      var name := ClientIp.Trim(l.name);
      match DefsOf(x, ls[..|ls| - 1])
      case None => None
      case Some(defs) => if name == "" || name in defs || DefOf(x, l).None? then None
      else Some(defs[name := DefOf(x, l).value])
  }

  // ---- upstream groups ----

  datatype WireServer = WireServer(host: string, port: u32, weight: u32)

  datatype WireHash = HashClientIp(on: bool) | HashHeader(name: string)

  datatype WireHealth = WireHealth(kind: Option<HealthKind>, timeout: u64, interval: u64, successes: u32, failures: u32)

  datatype WireGroup = WireGroup(name: string, servers: seq<WireServer>, policy: int, health: Option<WireHealth>,
                                 hash: Option<Option<WireHash>>, allowEmpty: bool)

  function ServerOf(s: WireServer): Option<Backend> {
    if Lexer.Blank(s.host) || s.port == 0 || s.port > 65535 || s.weight > 65535 then None
    else Some(Backend(s.host, s.port, if s.weight == 0 then 1 else s.weight))
  }

  function WireServerOf(b: Backend): WireServer { WireServer(b.host, Clip(b.port), Clip(b.weight)) }

  function TotalWeight(l: seq<Backend>): nat { if l == [] then 0 else TotalWeight(l[..|l| - 1]) + l[|l| - 1].weight }

  function PolicyOf(code: int): Policy {
    if code == 2 then Random else if code == 3 then ConsistentHash else RoundRobin
  }

  function PolicyCode(p: Policy): int { match p case RoundRobin => 1 case Random => 2 case ConsistentHash => 3 }

  function HashOf(x: Syntax, h: Option<Option<WireHash>>): Option<Option<HashKey>> {
    match h
    case None => Some(None)
    case Some(None) => None
    case Some(Some(HashClientIp(on))) => if on then Some(Some(ByClientIp)) else None
    case Some(Some(HashHeader(name))) => if x.headerName(name).Some? then Some(Some(ByHeader(name))) else None
  }

  function WireHashOf(h: Option<HashKey>): Option<Option<WireHash>> {
    match h case None => None case Some(ByClientIp) => Some(Some(HashClientIp(true))) case Some(ByHeader(n))
      => Some(Some(HashHeader(n)))
  }

  function HealthOf(x: Syntax, h: Option<WireHealth>): Option<Option<HealthCheck>> {
    match h
    case None => Some(None)
    case Some(w) =>
      if w.kind.None? || w.timeout == 0 || w.interval == 0 || w.successes == 0 || w.failures == 0 then None
      else if w.kind.value.HttpCheck? && (Lexer.Blank(w.kind.value.host) || !x.checkPath(w.kind.value.path)) then None
      else Some(Some(HealthCheck(w.kind.value, w.timeout, w.interval, w.successes, w.failures)))
  }

  function WireHealthOf(h: Option<HealthCheck>): Option<WireHealth> {
    if h.None? then None else Some(WireHealth(Some(h.value.kind), h.value.timeout, h.value.interval,
                                              h.value.successes, h.value.failures))
  }

  function GroupOf(x: Syntax, w: WireGroup): Option<UpstreamGroup> {
    var name := ClientIp.Trim(w.name);
    var servers, hash, health := Each(ServerOf, w.servers), HashOf(x, w.hash), HealthOf(x, w.health);
    if name == "" || Normalize(name) == "" || servers.None? || hash.None? || health.None? then None
    else if (servers.value == [] && !w.allowEmpty) || TotalWeight(servers.value) > 65535 then None
    else if hash.value.Some? && PolicyOf(w.policy) != ConsistentHash then None
    else Some(UpstreamGroup(name, w.allowEmpty, PolicyOf(w.policy), hash.value, servers.value, health.value))
  }

  function WireGroupOf(g: UpstreamGroup): WireGroup {
    WireGroup(g.name, Map(WireServerOf, g.servers), PolicyCode(g.policy), WireHealthOf(g.healthCheck),
              WireHashOf(g.hashKey), g.allowEmpty)
  }

  lemma ServersRoundTrip(l: seq<WireServer>)
    requires Each(ServerOf, l).Some?
    ensures Each(ServerOf, Map(WireServerOf, Each(ServerOf, l).value)) == Each(ServerOf, l)
  {
    EachElement(ServerOf, l);
    var bs := Each(ServerOf, l).value;
    forall i | 0 <= i < |bs| ensures ServerOf(WireServerOf(bs[i])) == Some(bs[i]) {
      assert ServerOf(l[i]) == Some(bs[i]);
    }
    EachBack(ServerOf, WireServerOf, bs);
  }

  lemma GroupRoundTrip(x: Syntax, w: WireGroup)
    requires GroupOf(x, w).Some?
    ensures GroupOf(x, WireGroupOf(GroupOf(x, w).value)) == GroupOf(x, w) && !Lexer.Blank(GroupOf(x, w).value.name)
  {
    var g := GroupOf(x, w).value;
    TrimTrims(w.name);
    ServersRoundTrip(w.servers);
    assert HashOf(x, WireHashOf(g.hashKey)) == Some(g.hashKey);
    assert HealthOf(x, WireHealthOf(g.healthCheck)) == Some(g.healthCheck);
  }

  function GroupsOf(x: Syntax, ws: seq<WireGroup>): Option<map<string, UpstreamGroup>> {
    if ws == [] then Some(map[])
    else
      match GroupsOf(x, ws[..|ws| - 1])
      case None => None
      case Some(ups) =>
        match GroupOf(x, ws[|ws| - 1])
        case None => None
        case Some(g) => if Normalize(g.name) in ups then None else Some(ups[Normalize(g.name) := g])
  }

  /** Every group came from a message, and is stored under its normalized name. */
  ghost predicate Exportable(x: Syntax, ups: map<string, UpstreamGroup>) {
    Keyed(ups) && forall k :: k in ups ==> GroupOf(x, WireGroupOf(ups[k])) == Some(ups[k])
  }

  lemma {:induction false} GroupsExportable(x: Syntax, ws: seq<WireGroup>)
    requires GroupsOf(x, ws).Some?
    ensures Exportable(x, GroupsOf(x, ws).value)
  {
    if ws != [] {
      GroupsExportable(x, ws[..|ws| - 1]);
      GroupRoundTrip(x, ws[|ws| - 1]);
    }
  }

  /** Each key once, in some order. */
  predicate Lists<K(==)>(order: seq<K>, keys: set<K>) {
    (forall i :: 0 <= i < |order| ==> order[i] in keys) && (forall k :: k in keys ==> k in order)
    && NoRepeats(order)
  }

  predicate NoRepeats<K(==)>(order: seq<K>) { forall i, j :: 0 <= i < j < |order| ==> order[i] != order[j] }

  lemma NoRepeatsFront<K>(order: seq<K>)
    requires NoRepeats(order) && order != []
    ensures var front, last := order[..|order| - 1], order[|order| - 1];
            NoRepeats(front) && last !in front && order == front + [last]
  {
  }

  function ExportGroups(ups: map<string, UpstreamGroup>, order: seq<string>): seq<WireGroup>
    requires forall i :: 0 <= i < |order| ==> order[i] in ups
  {
    seq(|order|, i requires 0 <= i < |order| => WireGroupOf(ups[order[i]]))
  }

  lemma OneMoreGroup(x: Syntax, ws: seq<WireGroup>, ups: map<string, UpstreamGroup>, g: UpstreamGroup)
    requires GroupsOf(x, ws) == Some(ups) && GroupOf(x, WireGroupOf(g)) == Some(g) && Normalize(g.name) !in ups
    ensures GroupsOf(x, ws + [WireGroupOf(g)]) == Some(ups[Normalize(g.name) := g])
  {
    assert (ws + [WireGroupOf(g)])[..|ws|] == ws;
  }

  function Picked(ups: map<string, UpstreamGroup>, order: seq<string>): map<string, UpstreamGroup>
    requires forall i :: 0 <= i < |order| ==> order[i] in ups
  {
    if order == [] then map[] else Picked(ups, order[..|order| - 1])[order[|order| - 1] := ups[order[|order| - 1]]]
  }

  lemma {:induction false} PickedIs(ups: map<string, UpstreamGroup>, order: seq<string>, k: string)
    requires forall i :: 0 <= i < |order| ==> order[i] in ups
    ensures k in Picked(ups, order) <==> k in order
    ensures k in Picked(ups, order) ==> k in ups && Picked(ups, order)[k] == ups[k]
  {
    if order != [] {
      PickedIs(ups, order[..|order| - 1], k);
      assert order == order[..|order| - 1] + [order[|order| - 1]];
    }
  }

  lemma ExportGroupsFront(ups: map<string, UpstreamGroup>, order: seq<string>)
    requires order != [] && forall i :: 0 <= i < |order| ==> order[i] in ups
    ensures ExportGroups(ups, order) == ExportGroups(ups, order[..|order| - 1]) + [WireGroupOf(ups[order[|order| - 1]])]
  {
  }

  /** The group under a key is read back from its message, under that key. */
  ghost predicate ReadBack(x: Syntax, ups: map<string, UpstreamGroup>, k: string) {
    k in ups && GroupOf(x, WireGroupOf(ups[k])) == Some(ups[k]) && Normalize(ups[k].name) == k
  }

  lemma {:induction false} GroupsReadBack(x: Syntax, ups: map<string, UpstreamGroup>, order: seq<string>)
    requires (forall i :: 0 <= i < |order| ==> order[i] in ups && ReadBack(x, ups, order[i])) && NoRepeats(order)
    ensures GroupsOf(x, ExportGroups(ups, order)) == Some(Picked(ups, order))
    decreases |order|
  {
    if order != [] {
      var front, last := order[..|order| - 1], order[|order| - 1];
      NoRepeatsFront(order);
      GroupsReadBack(x, ups, front);
      ExportGroupsFront(ups, order);
      PickedIs(ups, front, last);
      assert ReadBack(x, ups, last);
      OneMoreGroup(x, ExportGroups(ups, front), Picked(ups, front), ups[last]);
    }
  }

  lemma PickedAll(ups: map<string, UpstreamGroup>, order: seq<string>)
    requires (forall i :: 0 <= i < |order| ==> order[i] in ups) && (forall k :: k in ups ==> k in order)
    ensures Picked(ups, order) == ups
  {
    var p := Picked(ups, order);
    forall k ensures (k in p <==> k in ups) && (k in p ==> k in ups && p[k] == ups[k]) {
      PickedIs(ups, order, k);
    }
  }

  /** Groups exported in any order are read back as they were. */
  lemma GroupsRoundTrip(x: Syntax, ups: map<string, UpstreamGroup>, order: seq<string>)
    requires Exportable(x, ups) && Lists(order, ups.Keys)
    ensures GroupsOf(x, ExportGroups(ups, order)) == Some(ups)
  {
    forall i | 0 <= i < |order| ensures order[i] in ups && ReadBack(x, ups, order[i]) {
    }
    GroupsReadBack(x, ups, order);
    PickedAll(ups, order);
  }
}

/** The compiled configuration: what a router is made of. Durations are whole milliseconds. */
module Config {
  import opened Common

  /** Without the slashes at its end. */
  function TrimSlashes(s: string): string { if s != [] && s[|s| - 1] == '/' then TrimSlashes(s[..|s| - 1]) else s }

  datatype PemSource = Path(path: string) | InlinePem(pem: string)

  datatype TlsIdentity = TlsIdentity(cert: PemSource, key: PemSource)

  datatype TlsVersion = Tls1 | Tls12 | Tls13

  datatype VerifyClient = VerifyOff | VerifyOptional | VerifyRequired

  datatype TlsSettings = TlsSettings(protocols: Option<(TlsVersion, TlsVersion)>, verifyClient: VerifyClient,
                                     clientCertificate: Option<PemSource>)

  // ---- routes ----

  datatype PathMatch = ExactPath(path: string) | PathPrefix(path: string)

  datatype HttpMatch = HttpMatch(path: PathMatch, verb: Option<string>, headers: seq<(string, string)>,
                                 query: seq<(string, string)>)

  datatype Matcher =
    | Http(rule: HttpMatch)
    | Prefix(path: string)
    | Exact(path: string)
    | Regex(pattern: string, caseInsensitive: bool)
    | PreferPrefix(path: string)
    | Named(name: string)

  datatype PathModifier = ReplaceFullPath(path: string) | ReplacePrefixMatch(path: string)

  datatype Redirect = Redirect(status: nat, scheme: Option<string>, hostname: Option<string>, port: Option<nat>,
                               path: Option<PathModifier>)

  datatype Target =
    | WeightedBackends(backends: seq<WeightedBackend>)
    | DirectResponse(status: nat)
    | HttpRedirect(redirect: Redirect)
    | Scp(profile: string)
    | ProxyPass(host: string, port: nat, tls: bool, sni: string)
    | Group(name: string, tls: bool)
    | Return(status: nat, location: string)

  datatype WeightedBackend = WeightedBackend(weight: nat, target: Target)

  datatype UrlRewrite = UrlRewrite(hostname: Option<string>, path: Option<PathModifier>)

  datatype Timeouts = Timeouts(connect: Option<u64>, read: Option<u64>, write: Option<u64>)

  datatype UpstreamProtocol = H1 | H2 | H2c

  datatype UpstreamHttp2 = UpstreamHttp2(maxStreams: Option<u32>, streamWindow: Option<u32>,
                                         connectionWindow: Option<u32>)

  datatype UpstreamTls = UpstreamTls(verify: bool, trusted: Option<PemSource>, cert: Option<PemSource>,
                                     key: Option<PemSource>)

  datatype ClientLimits = ClientLimits(maxBody: Option<u64>, bodyTimeout: Option<u64>, sendTimeout: Option<u64>,
                                       methods: seq<string>)

  datatype KeyMode = Uri | UriAndMethod | NormalizedUri

  datatype RouteCache = RouteCache(enabled: bool, maxSize: Option<u64>, ttl: Option<u64>, staleIfError: Option<u64>,
                                   keyMode: KeyMode, minUses: Option<u32>, statuses: seq<nat>)

  /** A plugin's JSON configuration, up to its text. */
  datatype Json = Null | Document(id: nat)

  datatype PluginSpec = PluginSpec(name: string, config: Json)

  /** An IP network, up to its text. */
  datatype Network = Network(address: IpAddr, prefix: nat)

  datatype AccessRule = Allow(network: Network) | Deny(network: Network) | AllowAll | DenyAll

  /** Everything a location says, apart from the id it is given. */
  datatype Content = Content(
    matcher: Matcher, target: Target, rewrite: Option<UrlRewrite>, timeouts: Timeouts,
    protocol: Option<UpstreamProtocol>,
    http2: UpstreamHttp2, tls: UpstreamTls, limits: ClientLimits, access: seq<AccessRule>, plugins: seq<PluginSpec>,
    cache: Option<RouteCache>)

  datatype Location = Location(routeId: nat, content: Content)

  type Routes = seq<Location>

  // ---- listeners and the router ----

  datatype ListenKey = ListenKey(addr: IpAddr, port: nat, ssl: bool)

  datatype Protocol = Protocol(http2: bool, http2Only: bool)

  datatype VirtualHosts = VirtualHosts(named: map<string, Routes>, default: Option<Routes>)

  datatype ListenerTls = ListenerTls(named: map<string, TlsIdentity>, default: Option<TlsIdentity>,
                                     settings: TlsSettings)

  datatype Policy = RoundRobin | Random | ConsistentHash

  datatype HashKey = ByClientIp | ByHeader(name: string)

  datatype Backend = Backend(host: string, port: nat, weight: nat)

  datatype HealthKind = TcpCheck | HttpCheck(host: string, path: string, useTls: bool)

  datatype HealthCheck = HealthCheck(kind: HealthKind, timeout: u64, interval: u64, successes: u32, failures: u32)

  datatype UpstreamGroup = UpstreamGroup(name: string, allowEmpty: bool, policy: Policy, hashKey: Option<HashKey>,
                                         servers: seq<Backend>, healthCheck: Option<HealthCheck>)

  datatype RealIp = RealIp(trusted: seq<Network>, header: string, recursive: bool)

  datatype GeoIp = GeoIp(database: string, reloadInterval: u64, trusted: seq<Network>)

  datatype LetsEncrypt = LetsEncrypt(directory: Option<string>, email: Option<string>, cacheDir: Option<string>)

  datatype Http2 = Http2(maxStreams: Option<u32>, maxHeaderList: Option<u32>, streamWindow: Option<u32>,
                         connectionWindow: Option<u32>)

  datatype HttpOptions = HttpOptions(
    realIp: Option<RealIp>, headerTimeout: Option<u64>, bodyTimeout: Option<u64>, sendTimeout: Option<u64>,
    keepalive: Option<u64>, keepaliveRequests: Option<u32>, maxBody: Option<u64>, cacheMaxSize: Option<u64>,
    tcpNodelay: bool, allowConnect: bool, h2c: bool, http2: Http2)

  datatype ScpProfile = ScpProfile(name: string, apiRoot: string, discovery: seq<string>, allowed: seq<string>)

  datatype Router = Router(
    listeners: map<ListenKey, VirtualHosts>, protocols: map<ListenKey, Protocol>, tls: map<ListenKey, ListenerTls>,
    upstreams: map<string, UpstreamGroup>, profiles: map<string, ScpProfile>, options: HttpOptions,
    letsEncrypt: Option<LetsEncrypt>, geoip: Option<GeoIp>)

  // ---- host names ----

  function LowerChar(c: char): char {
    if 'A' <= c <= 'Z' then (c as int + 32) as char else c
  }

  function Lower(s: string): string { seq(|s|, i requires 0 <= i < |s| => LowerChar(s[i])) }

  function TrimDots(s: string): string
  {
    if s != [] && s[|s| - 1] == '.' then TrimDots(s[..|s| - 1]) else s
  }

  /** `normalize_hostname`, also used for upstream names. */
  function Normalize(s: string): string { Lower(TrimDots(s)) }

  predicate Alphanumeric(c: char) { '0' <= c <= '9' || 'a' <= c <= 'z' || 'A' <= c <= 'Z' }

  /** Dot-separated labels of 1 to 63 letters, digits and inner hyphens; at most 253 characters. */
  predicate ValidHostname(s: string) {
    && 0 < |s| <= 253
    && (forall i :: 0 <= i < |s| ==> Alphanumeric(s[i]) || s[i] == '-' || s[i] == '.')
    && LabelEdge(s[0]) && LabelEdge(s[|s| - 1])
    && (forall i :: 0 < i < |s| && s[i] == '.' ==> LabelEdge(s[i - 1]))
    && (forall i :: 0 < i < |s| && s[i - 1] == '.' ==> LabelEdge(s[i]))
    && (forall i :: 0 <= i <= |s| - 64 ==> DotWithin(s, i))
  }

  predicate DotWithin(s: string, i: nat) { exists j :: i <= j < i + 64 && j < |s| && s[j] == '.' }

  predicate LabelEdge(c: char) { c != '.' && c != '-' }
}

/**
  * One route over the wire: how a message becomes a compiled location, how a compiled location is
  * exported, and when the two undo each other. A message is accepted or not; which of several errors
  * is reported is not modelled.
  */
module WireRoute {
  import opened Common
  import opened Config
  import Lexer

  // ---- syntax of names, addresses and documents, as the libraries define it ----

  /**
    * A parsed `http` or `https` URL: its host, its port unless it is the scheme's own, and whether it is
    * nothing but host and port.
    */
  datatype Url = Url(host: string, port: Option<nat>, bare: bool)

  datatype Syntax = Syntax(
    showIp: IpAddr -> string, parseIp: string -> Option<IpAddr>,
    showNetwork: Network -> string, parseNetwork: string -> Option<Network>,
    showJson: Json -> string, parseJson: string -> Option<Json>,
    headerName: string -> Option<string>, headerValue: string -> bool, verb: string -> bool,
    path: string -> bool, regex: (string, bool) -> bool, url: (bool, string, nat) -> Option<Url>,
    isIp: string -> bool, template: string -> bool, checkPath: string -> bool,
    profile: (ScpProfile, map<string, UpstreamGroup>) -> bool)

  function DefaultPort(tls: bool): nat { if tls then 443 else 80 }

  function EffectivePort(u: Url, tls: bool): nat { if u.port.Some? then u.port.value else DefaultPort(tls) }

  /** What the libraries promise: printed values parse back, and normal forms are stable. */
  ghost predicate Faithful(x: Syntax) {
    && (forall a :: x.parseIp(x.showIp(a)) == Some(a))
    && (forall n :: x.parseNetwork(x.showNetwork(n)) == Some(n) && x.showNetwork(n) != "all")
    && (forall j :: x.parseJson(x.showJson(j)) == Some(j) && !Lexer.Blank(x.showJson(j)))
    && (forall s :: x.headerName(s).Some? ==> x.headerName(x.headerName(s).value) == x.headerName(s))
    && x.path("/") && (forall s :: x.path(s) && TrimSlashes(s) != "" ==> x.path(TrimSlashes(s)))
    && (forall tls, h, p :: x.url(tls, h, p).Some? ==>
                              var u := x.url(tls, h, p).value;
                              !Lexer.Blank(u.host) && EffectivePort(u, tls) <= 65535
                              && x.url(tls, u.host, EffectivePort(u, tls))
                                 == Some(Url(u.host, if EffectivePort(u, tls) == DefaultPort(tls) then None
                                             else Some(EffectivePort(u, tls)), true)))
  }

  // ---- the message ----

  /** A message field whose one-of may be left unset. */
  type Unset<T> = Option<Option<T>>

  datatype WireMatch =
    | WireHttp(path: Option<PathMatch>, verb: Option<string>, headers: seq<(string, string)>,
               query: seq<(string, string)>)
    | WirePrefix(text: string)
    | WireExact(text: string)
    | WirePrefer(text: string)
    | WireRegex(text: string, caseInsensitive: bool)
    | WireNamed(text: string)

  datatype WireUpstream = WireUpstream(scheme: string, host: string, port: u32, group: string)

  datatype WireBackendTarget = BackendUpstream(upstream: WireUpstream) | BackendResponse(status: u32)

  datatype WireBackend = WireBackend(weight: Option<u32>, target: Option<WireBackendTarget>)

  datatype WireAction =
    | ToUpstream(upstream: WireUpstream)
    | ToRedirect(code: u32, location: string)
    | ToScp(profile: string)
    | ToBackends(backends: seq<WireBackend>)
    | ToResponse(code: u32)
    | ToHttpRedirect(code: u32, scheme: Option<string>, hostname: Option<string>, port: Option<u32>,
                     path: Unset<PathModifier>)

  datatype WireTls = WireTls(verify: int, trusted: Unset<PemSource>, cert: Unset<PemSource>, key: Unset<PemSource>)

  datatype WireCache = WireCache(enabled: int, maxSize: u64, ttl: u64, stale: u64, keyMode: int, minUses: u32,
                                 statuses: seq<u32>)

  datatype WireRewrite = WireRewrite(hostname: Option<string>, path: Unset<PathModifier>)

  datatype WireRoute = WireRoute(
    rule: Option<WireMatch>, action: Option<WireAction>, timeouts: Option<(u64, u64, u64)>,
    plugins: seq<(string, string)>,
    tls: Option<WireTls>, protocol: int, cache: Option<WireCache>, rewrite: Option<WireRewrite>,
    http2: Option<UpstreamHttp2>,
    access: seq<(int, string)>, methods: seq<string>, maxBody: Option<u64>, bodyTimeout: Option<u64>,
    sendTimeout: Option<u64>)

  // ---- small conversions ----

  function NonZero64(n: u64): Option<u64> { if n > 0 then Some(n) else None }

  function NonZero32(n: u32): Option<u32> { if n > 0 then Some(n) else None }

  function OrZero64(n: Option<u64>): u64 { if n.Some? then n.value else 0 }

  function OrZero32(n: Option<u32>): u32 { if n.Some? then n.value else 0 }

  /** An optional sub-message: absent stays absent, but if it is there its one-of must be set. */
  function IfSet<T>(v: Unset<T>): Option<Option<T>> {
    match v case None => Some(None) case Some(None) => None case Some(Some(t)) => Some(Some(t))
  }

  function Sent<T>(v: Option<T>): Unset<T> { match v case None => None case Some(t) => Some(Some(t)) }

  lemma SentIsSet<T>(v: Option<T>)
    ensures IfSet(Sent(v)) == Some(v)
  {
  }

  // ---- matchers ----

  predicate SafePath(x: Syntax, p: string) {
    p != [] && p[0] == '/' && x.path(p) && (forall i :: 0 <= i < |p| ==> p[i] != '?' && p[i] != '#')
    && (forall i :: 0 < i < |p| ==> !(p[i - 1] == '/' && p[i] == '/'))
  }

  function PlainPrefix(p: string): string { if TrimSlashes(p) == "" then "/" else TrimSlashes(p) }

  /** Keeps the first of several entries with one name. */
  function FirstOnly(l: seq<(string, string)>): seq<(string, string)> {
    if l == [] then []
    else
      var before, last := FirstOnly(l[..|l| - 1]), l[|l| - 1];
      if exists i :: 0 <= i < |before| && before[i].0 == last.0 then before else before + [last]
  }

  function HeadersOf(x: Syntax, l: seq<(string, string)>): Option<seq<(string, string)>> {
    if l == [] then Some([])
    else
      match HeadersOf(x, l[..|l| - 1])
      case None => None
      case Some(before) =>
        var last := l[|l| - 1];
        if x.headerName(last.0).None? || !x.headerValue(last.1) then None
        else Some(before + [(x.headerName(last.0).value, last.1)])
  }

  function MatcherOf(x: Syntax, m: Option<WireMatch>): Option<Matcher> {
    match m
    case None => None
    case Some(WirePrefix(t)) => Some(Prefix(t))
    case Some(WireExact(t)) => Some(Exact(t))
    case Some(WirePrefer(t)) => Some(PreferPrefix(t))
    case Some(WireNamed(t)) => Some(Named(t))
    case Some(WireRegex(t, ci)) => if x.regex(t, ci) then Some(Regex(t, ci)) else None
    case Some(WireHttp(path, verb, headers, query)) =>
      var p := if path.None? then PathPrefix("/") else path.value;
      var hs := HeadersOf(x, headers);
      if !SafePath(x, p.path) || (verb.Some? && !x.verb(verb.value)) || hs.None? then None
      else
        var path := if p.ExactPath? then p else PathPrefix(PlainPrefix(p.path));
        Some(Http(HttpMatch(path, verb, FirstOnly(hs.value), FirstOnly(query))))
  }

  function WireMatchOf(m: Matcher): WireMatch {
    match m
    case Http(r) => WireHttp(Some(r.path), r.verb, r.headers, r.query)
    case Prefix(p) => WirePrefix(p)
    case Exact(p) => WireExact(p)
    case Regex(p, ci) => WireRegex(p, ci)
    case PreferPrefix(p) => WirePrefer(p)
    case Named(n) => WireNamed(n)
  }

  predicate DistinctNames(l: seq<(string, string)>) { forall i, j :: 0 <= i < j < |l| ==> l[i].0 != l[j].0 }

  lemma {:induction false} FirstOnlyDistinct(l: seq<(string, string)>)
    ensures DistinctNames(FirstOnly(l))
  {
    if l != [] { FirstOnlyDistinct(l[..|l| - 1]); }
  }

  lemma {:induction false} FirstOnlyFrom(l: seq<(string, string)>, e: (string, string))
    requires e in FirstOnly(l)
    ensures e in l
  {
    var front, last := l[..|l| - 1], l[|l| - 1];
    if e != last { FirstOnlyFrom(front, e); }
    assert l == front + [last];
  }

  lemma {:induction false} FirstOnlyFixes(l: seq<(string, string)>)
    requires DistinctNames(l)
    ensures FirstOnly(l) == l
  {
    if l != [] {
      FirstOnlyFixes(l[..|l| - 1]);
      assert l == l[..|l| - 1] + [l[|l| - 1]];
    }
  }

  /** Already in normal form, with usable values. */
  predicate HeadersFixed(x: Syntax, l: seq<(string, string)>) {
    forall i :: 0 <= i < |l| ==> x.headerName(l[i].0) == Some(l[i].0) && x.headerValue(l[i].1)
  }

  lemma {:induction false} HeadersNormal(x: Syntax, l: seq<(string, string)>)
    requires Faithful(x) && HeadersOf(x, l).Some?
    ensures HeadersFixed(x, HeadersOf(x, l).value)
  {
    if l != [] { HeadersNormal(x, l[..|l| - 1]); }
  }

  lemma {:induction false} HeadersStay(x: Syntax, l: seq<(string, string)>)
    requires HeadersFixed(x, l)
    ensures HeadersOf(x, l) == Some(l)
  {
    if l != [] {
      HeadersStay(x, l[..|l| - 1]);
      assert l == l[..|l| - 1] + [l[|l| - 1]];
    }
  }

  lemma {:induction false} TrimSlashesPrefix(s: string)
    ensures TrimSlashes(s) <= s && (TrimSlashes(s) != [] ==> TrimSlashes(s)[|TrimSlashes(s)| - 1] != '/')
  {
    if s != [] && s[|s| - 1] == '/' { TrimSlashesPrefix(s[..|s| - 1]); }
  }

  lemma PlainPrefixSafe(x: Syntax, p: string)
    requires Faithful(x) && SafePath(x, p)
    ensures SafePath(x, PlainPrefix(p)) && PlainPrefix(PlainPrefix(p)) == PlainPrefix(p)
  {
    TrimSlashesPrefix(p);
    var q := TrimSlashes(p);
    assert "/"[..0] == [];
    if q != "" {
      assert q[0] == p[0] && forall i :: 0 <= i < |q| ==> q[i] == p[i];
    }
  }

  /** A compiled matcher exports to a message that compiles to it. */
  lemma MatcherRoundTrip(x: Syntax, m: Option<WireMatch>)
    requires Faithful(x) && MatcherOf(x, m).Some?
    ensures MatcherOf(x, Some(WireMatchOf(MatcherOf(x, m).value))) == MatcherOf(x, m)
  {
    if m.value.WireHttp? {
      var hs := HeadersOf(x, m.value.headers).value;
      HeadersNormal(x, m.value.headers);
      FirstOnlyDistinct(hs);
      FirstOnlyDistinct(m.value.query);
      FirstOnlyFixes(FirstOnly(hs));
      FirstOnlyFixes(FirstOnly(m.value.query));
      assert HeadersFixed(x, FirstOnly(hs)) by {
        forall i | 0 <= i < |FirstOnly(hs)|
          ensures x.headerName(FirstOnly(hs)[i].0) == Some(FirstOnly(hs)[i].0) && x.headerValue(FirstOnly(hs)[i].1)
        {
          FirstOnlyFrom(hs, FirstOnly(hs)[i]);
          var j :| 0 <= j < |hs| && hs[j] == FirstOnly(hs)[i];
        }
      }
      HeadersStay(x, FirstOnly(hs));
      var p := if m.value.path.None? then PathPrefix("/") else m.value.path.value;
      PlainPrefixSafe(x, p.path);
    }
  }

  // ---- lists ----

  /** Converts every element; one bad element spoils the list. */
  function Each<A, B>(f: A -> Option<B>, l: seq<A>): Option<seq<B>> {
    if l == [] then Some([])
    else
      match Each(f, l[..|l| - 1])
      case None => None
      case Some(before) => match f(l[|l| - 1]) case None => None case Some(b) => Some(before + [b])
  }

  function Map<A, B>(f: A -> B, l: seq<A>): seq<B> { seq(|l|, i requires 0 <= i < |l| => f(l[i])) }

  lemma {:induction false} EachElement<A, B>(f: A -> Option<B>, l: seq<A>)
    requires Each(f, l).Some?
    ensures |Each(f, l).value| == |l| && forall i :: 0 <= i < |l| ==> f(l[i]) == Some(Each(f, l).value[i])
  {
    if l != [] { EachElement(f, l[..|l| - 1]); }
  }

  lemma {:induction false} EachIs<A, B>(f: A -> Option<B>, l: seq<A>, out: seq<B>)
    requires |out| == |l| && forall i :: 0 <= i < |l| ==> f(l[i]) == Some(out[i])
    ensures Each(f, l) == Some(out)
  {
    if l != [] {
      EachIs(f, l[..|l| - 1], out[..|l| - 1]);
      assert out == out[..|l| - 1] + [out[|l| - 1]];
    }
  }

  lemma {:induction false} EachBack<A, B>(f: A -> Option<B>, g: B -> A, l: seq<B>)
    requires forall i :: 0 <= i < |l| ==> f(g(l[i])) == Some(l[i])
    ensures Each(f, Map(g, l)) == Some(l)
  {
    if l != [] {
      var front := l[..|l| - 1];
      EachBack(f, g, front);
      assert Map(g, l)[..|l| - 1] == Map(g, front) && l == front + [l[|l| - 1]];
    }
  }

  // ---- targets ----

  function Sni(x: Syntax, host: string, tls: bool): string { if tls && !x.isIp(host) then host else "" }

  function UpstreamOf(x: Syntax, u: WireUpstream, ups: map<string, UpstreamGroup>): Option<Target> {
    if u.scheme != "http" && u.scheme != "https" then None
    else
      var tls := u.scheme == "https";
      if !Lexer.Blank(u.group) then
        if !Lexer.Blank(u.host) || u.port != 0 || Normalize(u.group) !in ups then None
        else Some(Group(ups[Normalize(u.group)].name, tls))
      else if Lexer.Blank(u.host) || u.port == 0 then None
      else
        match x.url(tls, u.host, u.port)
        case None => None
        case Some(url) =>
          if url.port.None? && url.bare && Normalize(url.host) in ups
          then Some(Group(ups[Normalize(url.host)].name, tls))
          else Some(ProxyPass(url.host, EffectivePort(url, tls), tls, Sni(x, url.host, tls)))
  }

  function Scheme(tls: bool): string { if tls then "https" else "http" }

  predicate IsUpstream(t: Target) { t.ProxyPass? || t.Group? }

  function WireUpstreamOf(t: Target): WireUpstream
    requires IsUpstream(t)
  {
    match t
    case ProxyPass(host, port, tls, _) => WireUpstream(Scheme(tls), host, if port <= U32_MAX then port else 0, "")
    case Group(name, tls) => WireUpstream(Scheme(tls), "", 0, name)
  }

  /** Groups are stored under their normalized names. */
  predicate Keyed(ups: map<string, UpstreamGroup>) {
    forall k :: k in ups ==> Normalize(ups[k].name) == k && !Lexer.Blank(ups[k].name)
  }

  /** A direct upstream that is read back as itself: a real port, and no group of that name at the scheme's own port. */
  predicate StableUpstream(t: Target, ups: map<string, UpstreamGroup>) {
    t.ProxyPass? ==> t.port != 0 && !(t.port == DefaultPort(t.tls) && Normalize(t.host) in ups)
  }

  lemma UpstreamRoundTrip(x: Syntax, u: WireUpstream, ups: map<string, UpstreamGroup>)
    requires Faithful(x) && Keyed(ups) && UpstreamOf(x, u, ups).Some?
    ensures var t := UpstreamOf(x, u, ups).value;
            IsUpstream(t) && (UpstreamOf(x, WireUpstreamOf(t), ups) == Some(t) <==> StableUpstream(t, ups))
  {
    var t := UpstreamOf(x, u, ups).value;
    if t.ProxyPass? {
      var url := x.url(t.tls, u.host, u.port).value;
      var port := if t.port == DefaultPort(t.tls) then None else Some(t.port);
      assert x.url(t.tls, t.host, t.port) == Some(Url(t.host, port, true));
    }
  }

  /** A host written as a bare host keeps its meaning: the condition a sender can check before sending. */
  lemma BareHostIsStable(x: Syntax, u: WireUpstream, ups: map<string, UpstreamGroup>)
    requires UpstreamOf(x, u, ups).Some? && UpstreamOf(x, u, ups).value.ProxyPass?
    requires var url := x.url(u.scheme == "https", u.host, u.port);
             url.Some? && url.value.bare && EffectivePort(url.value, u.scheme == "https") == u.port
             && (url.value.port.None? <==> u.port == DefaultPort(u.scheme == "https"))
    ensures StableUpstream(UpstreamOf(x, u, ups).value, ups)
  {
  }

  /**
    * `user@pool` at port 80 compiles to the host `pool`; exported and read again it is the upstream group of
    * that name.
    */
  lemma UserInfoBecomesGroup(x: Syntax, ups: map<string, UpstreamGroup>)
    requires Faithful(x) && Keyed(ups) && "pool" in ups
    requires x.url(false, "user@pool", 80) == Some(Url("pool", None, false))
    ensures var u := WireUpstream("http", "user@pool", 80, "");
            var t := ProxyPass("pool", 80, false, "");
            UpstreamOf(x, u, ups) == Some(t) && UpstreamOf(x, WireUpstreamOf(t), ups)
                                                == Some(Group(ups["pool"].name, false))
  {
    SpelledOut();
    assert x.url(false, "pool", 80) == Some(Url("pool", None, true));
  }

  /** `pool:0/x` compiles to port 0 of `pool`; exported it is refused. */
  lemma PortZeroIsRefused(x: Syntax, ups: map<string, UpstreamGroup>)
    requires x.url(false, "pool:0/x", 80) == Some(Url("pool", Some(0), false))
    ensures var u := WireUpstream("http", "pool:0/x", 80, "");
            var t := ProxyPass("pool", 0, false, "");
            UpstreamOf(x, u, ups) == Some(t) && UpstreamOf(x, WireUpstreamOf(t), ups) == None
  {
    SpelledOut();
  }

  lemma SpelledOut()
    ensures !Lexer.Blank("user@pool") && !Lexer.Blank("pool:0/x") && !Lexer.Blank("pool") && Normalize("pool") == "pool"
  {
    assert Lexer.WHITE_SPACE[0] == (0x9, 0xD);
    forall c | c == 'u' || c == 'p' ensures !Lexer.IsWhitespace(c) { Lexer.NotInRanges(c as int, Lexer.WHITE_SPACE); }
    assert !Lexer.IsWhitespace("user@pool"[0]) && !Lexer.IsWhitespace("pool:0/x"[0]) && !Lexer.IsWhitespace("pool"[0]);
    assert TrimDots("pool") == "pool" && Lower("pool") == "pool";
  }

  predicate Status16(n: nat) { n <= 65535 }

  function BackendOf(x: Syntax, ups: map<string, UpstreamGroup>, b: WireBackend): Option<WeightedBackend> {
    var weight := if b.weight.None? then 1 else b.weight.value;
    if weight > 1_000_000 then None
    else
      match b.target
      case None => None
      case Some(BackendUpstream(u)) =>
        (match UpstreamOf(x, u, ups) case None => None case Some(t) => Some(WeightedBackend(weight, t)))
      case Some(BackendResponse(status)) => if 200 <= status <= 599
      then Some(WeightedBackend(weight, DirectResponse(status))) else None
  }

  function Backends(x: Syntax, ups: map<string, UpstreamGroup>): WireBackend -> Option<WeightedBackend> {
    b => BackendOf(x, ups, b)
  }

  /** What a compiled weighted backend can be. */
  predicate BackendShape(b: WeightedBackend) {
    b.weight <= 1_000_000 && (IsUpstream(b.target) || (b.target.DirectResponse? && 200 <= b.target.status <= 599))
  }

  function WireBackendOf(b: WeightedBackend): WireBackend {
    WireBackend(Some(if b.weight <= U32_MAX then b.weight else 0),
                if IsUpstream(b.target) then Some(BackendUpstream(WireUpstreamOf(b.target)))
                else if b.target.DirectResponse? && b.target.status <= U32_MAX
                then Some(BackendResponse(b.target.status)) else None)
  }

  predicate StableBackend(b: WeightedBackend, ups: map<string, UpstreamGroup>) { StableUpstream(b.target, ups) }

  lemma BackendRoundTrip(x: Syntax, ups: map<string, UpstreamGroup>, b: WireBackend)
    requires Faithful(x) && Keyed(ups) && BackendOf(x, ups, b).Some?
    ensures var c := BackendOf(x, ups, b).value;
            BackendShape(c) && (BackendOf(x, ups, WireBackendOf(c)) == Some(c) <==> StableBackend(c, ups))
  {
    if b.target.value.BackendUpstream? {
      UpstreamRoundTrip(x, b.target.value.upstream, ups);
    }
  }

  function TargetOf(x: Syntax, ups: map<string, UpstreamGroup>, a: Option<WireAction>): Option<Target> {
    match a
    case None => None
    case Some(ToUpstream(u)) => UpstreamOf(x, u, ups)
    case Some(ToRedirect(code, location)) =>
      if 300 <= code <= 399 && location != "" && x.template(location) then Some(Return(code, location)) else None
    case Some(ToScp(profile)) => Some(Scp(profile))
    case Some(ToBackends(bs)) =>
      var l := Each(Backends(x, ups), bs);
      if l.None? || l.value == [] then None else Some(WeightedBackends(l.value))
    case Some(ToResponse(code)) => if 200 <= code <= 599 then Some(DirectResponse(code)) else None
    case Some(ToHttpRedirect(code, scheme, hostname, port, path)) =>
      var status := if code == 0 then 302 else code;
      if !Status16(status) || (port.Some? && !Status16(port.value)) || IfSet(path).None? then None
      else Some(HttpRedirect(Redirect(status, scheme, hostname, port, IfSet(path).value)))
  }

  function Clip(n: nat): u32 { if n <= U32_MAX then n else 0 }

  function WireActionOf(t: Target): WireAction {
    match t
    case ProxyPass(_, _, _, _) => ToUpstream(WireUpstreamOf(t))
    case Group(_, _) => ToUpstream(WireUpstreamOf(t))
    case Return(status, location) => ToRedirect(Clip(status), location)
    case Scp(profile) => ToScp(profile)
    case WeightedBackends(bs) => ToBackends(Map(WireBackendOf, bs))
    case DirectResponse(status) => ToResponse(Clip(status))
    case HttpRedirect(r) =>
      var port := if r.port.Some? then Some(Clip(r.port.value)) else None;
      ToHttpRedirect(Clip(r.status), r.scheme, r.hostname, port, Sent(r.path))
  }

  /** Every direct upstream of the target is read back as itself. */
  predicate StableTarget(t: Target, ups: map<string, UpstreamGroup>) {
    if t.WeightedBackends? then forall i :: 0 <= i < |t.backends| ==> StableBackend(t.backends[i], ups)
    else StableUpstream(t, ups)
  }

  lemma BackendsRoundTrip(x: Syntax, ups: map<string, UpstreamGroup>, bs: seq<WireBackend>)
    requires Faithful(x) && Keyed(ups) && Each(Backends(x, ups), bs).Some?
    ensures var l := Each(Backends(x, ups), bs).value;
            Each(Backends(x, ups), Map(WireBackendOf, l)) == Some(l)
            <==> forall i :: 0 <= i < |l| ==> StableBackend(l[i], ups)
  {
    var f, g := Backends(x, ups), WireBackendOf;
    EachElement(f, bs);
    var l := Each(f, bs).value;
    forall i | 0 <= i < |l| ensures f(g(l[i])) == Some(l[i]) <==> StableBackend(l[i], ups) {
      assert f(bs[i]) == Some(l[i]);
      BackendRoundTrip(x, ups, bs[i]);
    }
    if forall i :: 0 <= i < |l| ==> StableBackend(l[i], ups) {
      EachBack(f, g, l);
    }
    if Each(f, Map(g, l)) == Some(l) {
      EachElement(f, Map(g, l));
      forall i | 0 <= i < |l| ensures StableBackend(l[i], ups) {
        assert f(Map(g, l)[i]) == Some(l[i]);
      }
    }
  }

  lemma TargetIsUpstream(x: Syntax, ups: map<string, UpstreamGroup>, t: Target)
    requires IsUpstream(t)
    ensures TargetOf(x, ups, Some(WireActionOf(t))) == UpstreamOf(x, WireUpstreamOf(t), ups)
    ensures StableTarget(t, ups) <==> StableUpstream(t, ups)
  {
  }

  lemma UpstreamTarget(x: Syntax, ups: map<string, UpstreamGroup>, u: WireUpstream)
    requires Faithful(x) && Keyed(ups) && UpstreamOf(x, u, ups).Some?
    ensures var t := UpstreamOf(x, u, ups).value;
            TargetOf(x, ups, Some(WireActionOf(t))) == Some(t) <==> StableTarget(t, ups)
  {
    UpstreamRoundTrip(x, u, ups);
    TargetIsUpstream(x, ups, UpstreamOf(x, u, ups).value);
  }

  lemma BackendsTarget(x: Syntax, ups: map<string, UpstreamGroup>, bs: seq<WireBackend>)
    requires Faithful(x) && Keyed(ups) && Each(Backends(x, ups), bs).Some? && Each(Backends(x, ups), bs).value != []
    ensures var t := WeightedBackends(Each(Backends(x, ups), bs).value);
            TargetOf(x, ups, Some(WireActionOf(t))) == Some(t) <==> StableTarget(t, ups)
  {
    BackendsRoundTrip(x, ups, bs);
    var l := Each(Backends(x, ups), bs).value;
    assert WireActionOf(WeightedBackends(l)) == ToBackends(Map(WireBackendOf, l));
  }

  lemma RedirectTarget(x: Syntax, ups: map<string, UpstreamGroup>, r: Redirect)
    requires Status16(r.status) && r.status != 0 && (r.port.Some? ==> Status16(r.port.value))
    ensures TargetOf(x, ups, Some(WireActionOf(HttpRedirect(r)))) == Some(HttpRedirect(r))
  {
    SentIsSet(r.path);
  }

  /** A compiled target exports to a message that compiles to it exactly when its direct upstreams are stable. */
  lemma TargetRoundTrip(x: Syntax, ups: map<string, UpstreamGroup>, a: Option<WireAction>)
    requires Faithful(x) && Keyed(ups) && TargetOf(x, ups, a).Some?
    ensures var t := TargetOf(x, ups, a).value;
            TargetOf(x, ups, Some(WireActionOf(t))) == Some(t) <==> StableTarget(t, ups)
  {
    match a.value
    case ToUpstream(u) => UpstreamTarget(x, ups, u);
    case ToBackends(bs) => BackendsTarget(x, ups, bs);
    case ToRedirect(code, location) => assert WireActionOf(Return(code, location)) == a.value;
    case ToScp(profile) => assert WireActionOf(Scp(profile)) == a.value;
    case ToResponse(code) => assert WireActionOf(DirectResponse(code)) == a.value;
    case ToHttpRedirect(_, _, _, _, _) => RedirectTarget(x, ups, TargetOf(x, ups, a).value.redirect);
  }

  // ---- transport and policy ----

  function TimeoutsOf(t: Option<(u64, u64, u64)>): Timeouts {
    match t
    case None => Timeouts(None, None, None)
    case Some(v) => Timeouts(NonZero64(v.0), NonZero64(v.1), NonZero64(v.2))
  }

  function WireTimeoutsOf(t: Timeouts): Option<(u64, u64, u64)> {
    Some((OrZero64(t.connect), OrZero64(t.read), OrZero64(t.write)))
  }

  /** Certificate and key come together or not at all. */
  function TlsOf(t: Option<WireTls>): Option<UpstreamTls> {
    match t
    case None => Some(UpstreamTls(true, None, None, None))
    case Some(w) =>
      var trusted, cert, key := IfSet(w.trusted), IfSet(w.cert), IfSet(w.key);
      if trusted.None? || cert.None? || key.None? || cert.value.Some? != key.value.Some? then None
      else Some(UpstreamTls(w.verify != 2, trusted.value, cert.value, key.value))
  }

  function WireTlsOf(t: UpstreamTls): WireTls {
    WireTls(if t.verify then 1 else 2, Sent(t.trusted), Sent(t.cert), Sent(t.key))
  }

  lemma TlsRoundTrip(t: Option<WireTls>)
    requires TlsOf(t).Some?
    ensures TlsOf(Some(WireTlsOf(TlsOf(t).value))) == TlsOf(t)
  {
    var u := TlsOf(t).value;
    SentIsSet(u.trusted);
    SentIsSet(u.cert);
    SentIsSet(u.key);
  }

  function ProtocolOf(code: int): Option<Option<UpstreamProtocol>> {
    if code == 0 then Some(None) else if code == 1 then Some(Some(H1)) else if code == 2 then Some(Some(H2))
    else if code == 3 then Some(Some(H2c)) else None
  }

  function WireProtocolOf(p: Option<UpstreamProtocol>): int {
    match p case None => 0 case Some(H1) => 1 case Some(H2) => 2 case Some(H2c) => 3
  }

  /** The protocol a target can be spoken to with, if the one asked for fits it. */
  function ProtocolFor(p: Option<UpstreamProtocol>, t: Target): Option<Option<UpstreamProtocol>> {
    if p.None? then Some(None)
    else
      match t
      case Scp(_) => None
      case ProxyPass(_, _, tls, _) => if (p == Some(H2) && !tls) || (p == Some(H2c) && tls) then None else Some(p)
      case Group(_, tls) => if (p == Some(H2) && !tls) || (p == Some(H2c) && tls) then None else Some(p)
      case WeightedBackends(bs) => if forall i :: 0 <= i < |bs| ==> ProtocolFor(p, bs[i].target).Some? then Some(p)
      else None
      case _ => Some(None)
  }

  lemma ProtocolRoundTrip(p: Option<UpstreamProtocol>, t: Target)
    requires ProtocolFor(p, t).Some?
    ensures ProtocolOf(WireProtocolOf(ProtocolFor(p, t).value)) == Some(ProtocolFor(p, t).value)
    ensures ProtocolFor(ProtocolFor(p, t).value, t) == ProtocolFor(p, t)
  {
  }

  predicate Http2Ok(h: UpstreamHttp2) {
    && (h.maxStreams.Some? ==> h.maxStreams.value != 0)
    && (h.streamWindow.Some? ==> 0 < h.streamWindow.value <= 0x7FFF_FFFF)
    && (h.connectionWindow.Some? ==> 0 < h.connectionWindow.value <= 0x7FFF_FFFF)
  }

  function Http2Of(h: Option<UpstreamHttp2>): UpstreamHttp2 {
    if h.None? then UpstreamHttp2(None, None, None) else h.value
  }

  function OnceEach(l: seq<string>): seq<string> {
    if l == [] then []
    else
      var before, last := OnceEach(l[..|l| - 1]), l[|l| - 1];
      if last in before then before else before + [last]
  }

  lemma {:induction false} OnceEachDistinct(l: seq<string>)
    ensures forall i, j :: 0 <= i < j < |OnceEach(l)| ==> OnceEach(l)[i] != OnceEach(l)[j]
    ensures forall i :: 0 <= i < |OnceEach(l)| ==> OnceEach(l)[i] in l
  {
    if l != [] { OnceEachDistinct(l[..|l| - 1]); }
  }

  lemma {:induction false} OnceEachFixes(l: seq<string>)
    requires forall i, j :: 0 <= i < j < |l| ==> l[i] != l[j]
    ensures OnceEach(l) == l
  {
    if l != [] {
      OnceEachFixes(l[..|l| - 1]);
      assert l == l[..|l| - 1] + [l[|l| - 1]];
    }
  }

  function MethodsOf(x: Syntax, l: seq<string>): Option<seq<string>> {
    if exists i :: 0 <= i < |l| && !x.verb(l[i]) then None else Some(OnceEach(l))
  }

  lemma MethodsRoundTrip(x: Syntax, l: seq<string>)
    requires MethodsOf(x, l).Some?
    ensures MethodsOf(x, MethodsOf(x, l).value) == MethodsOf(x, l)
  {
    OnceEachDistinct(l);
    OnceEachFixes(OnceEach(l));
  }

  function AccessOf(x: Syntax, r: (int, string)): Option<AccessRule> {
    if r.0 != 1 && r.0 != 2 then None
    else if r.1 == "all" then Some(if r.0 == 1 then AllowAll else DenyAll)
    else match x.parseNetwork(r.1) case None => None case Some(n) => Some(if r.0 == 1 then Allow(n) else Deny(n))
  }

  function WireAccessOf(x: Syntax, r: AccessRule): (int, string) {
    match r
    case AllowAll => (1, "all")
    case DenyAll => (2, "all")
    case Allow(n) => (1, x.showNetwork(n))
    case Deny(n) => (2, x.showNetwork(n))
  }

  function PluginOf(x: Syntax, p: (string, string)): Option<PluginSpec> {
    if Lexer.Blank(p.0) then None
    else if Lexer.Blank(p.1) then Some(PluginSpec(p.0, Null))
    else match x.parseJson(p.1) case None => None case Some(j) => Some(PluginSpec(p.0, j))
  }

  function WirePluginOf(x: Syntax, p: PluginSpec): (string, string) { (p.name, x.showJson(p.config)) }

  function Access(x: Syntax): ((int, string)) -> Option<AccessRule> { r => AccessOf(x, r) }

  function WireAccess(x: Syntax): AccessRule -> (int, string) { r => WireAccessOf(x, r) }

  function Plugins(x: Syntax): ((string, string)) -> Option<PluginSpec> { p => PluginOf(x, p) }

  function WirePlugins(x: Syntax): PluginSpec -> (string, string) { p => WirePluginOf(x, p) }

  lemma AccessRoundTrip(x: Syntax, l: seq<(int, string)>)
    requires Faithful(x) && Each(Access(x), l).Some?
    ensures Each(Access(x), Map(WireAccess(x), Each(Access(x), l).value)) == Each(Access(x), l)
  {
    EachBack(Access(x), WireAccess(x), Each(Access(x), l).value);
  }

  lemma PluginsRoundTrip(x: Syntax, l: seq<(string, string)>)
    requires Faithful(x) && Each(Plugins(x), l).Some?
    ensures Each(Plugins(x), Map(WirePlugins(x), Each(Plugins(x), l).value)) == Each(Plugins(x), l)
  {
    var specs := Each(Plugins(x), l).value;
    EachElement(Plugins(x), l);
    forall i | 0 <= i < |specs| ensures Plugins(x)(WirePlugins(x)(specs[i])) == Some(specs[i]) {
      assert Plugins(x)(l[i]) == Some(specs[i]);
    }
    EachBack(Plugins(x), WirePlugins(x), specs);
  }

  // ---- caching ----

  function KeyModeOf(code: int): Option<KeyMode> {
    if code == 0 || code == 1 then Some(Uri) else if code == 2 then Some(UriAndMethod) else if code == 3
    then Some(NormalizedUri) else None
  }

  function CacheOf(c: Option<WireCache>): Option<Option<RouteCache>> {
    match c
    case None => Some(None)
    case Some(w) =>
      if w.enabled !in {0, 1, 2} || KeyModeOf(w.keyMode).None?
         || exists i :: 0 <= i < |w.statuses| && w.statuses[i] > 65535 then None
      else Some(Some(RouteCache(w.enabled != 2, NonZero64(w.maxSize), Some(if w.ttl > 0 then w.ttl else 60_000),
                                NonZero64(w.stale),
                                KeyModeOf(w.keyMode).value, NonZero32(w.minUses), if w.statuses == []
                                then [200, 301, 404] else w.statuses)))
  }

  function WireCacheOf(c: RouteCache): WireCache {
    WireCache(if c.enabled then 1 else 2, OrZero64(c.maxSize), OrZero64(c.ttl), OrZero64(c.staleIfError),
              match c.keyMode case Uri => 1 case UriAndMethod => 2 case NormalizedUri => 3, OrZero32(c.minUses),
              Map(Clip, c.statuses))
  }

  lemma ClipKeeps(l: seq<nat>)
    requires forall i :: 0 <= i < |l| ==> l[i] <= U32_MAX
    ensures Map(Clip, l) == l
  {
    assert forall i :: 0 <= i < |l| ==> Map(Clip, l)[i] == Clip(l[i]);
  }

  lemma CacheRoundTrip(c: Option<WireCache>)
    requires CacheOf(c).Some?
    ensures CacheOf(if CacheOf(c).value.None? then None else Some(WireCacheOf(CacheOf(c).value.value))) == CacheOf(c)
  {
    if c.Some? {
      var r := CacheOf(c).value.value;
      assert forall i :: 0 <= i < |r.statuses| ==> r.statuses[i] <= 65535;
      ClipKeeps(r.statuses);
    }
  }

  // ---- the whole route ----

  predicate ModifierOk(x: Syntax, m: Option<PathModifier>, matcher: Matcher) {
    m.Some? ==>
      && (m.value.ReplacePrefixMatch? ==> matcher.Http? && matcher.rule.path.PathPrefix?)
      && (m.value.path != "" || m.value.ReplaceFullPath? ==> SafePath(x, m.value.path))
  }

  predicate HostnameOk(h: Option<string>) { h.Some? ==> ValidHostname(h.value) }

  predicate RedirectOk(x: Syntax, t: Target, m: Matcher) {
    t.HttpRedirect? ==>
      var r := t.redirect;
      && r.status in {301, 302, 303, 307, 308} && r.port != Some(0) && HostnameOk(r.hostname)
      && ModifierOk(x, r.path, m)
      && (r.scheme.Some? ==> r.scheme.value == "http" || r.scheme.value == "https")
  }

  predicate RewriteOk(x: Syntax, r: Option<UrlRewrite>, t: Target, m: Matcher) {
    r.Some? ==> (IsUpstream(t) || t.WeightedBackends?) && HostnameOk(r.value.hostname) && ModifierOk(x, r.value.path, m)
  }

  function RewriteOf(r: Option<WireRewrite>): Option<Option<UrlRewrite>> {
    match r
    case None => Some(None)
    case Some(w) => if IfSet(w.path).None? then None else Some(Some(UrlRewrite(w.hostname, IfSet(w.path).value)))
  }

  function WireRewriteOf(r: Option<UrlRewrite>): Option<WireRewrite> {
    if r.None? then None else Some(WireRewrite(r.value.hostname, Sent(r.value.path)))
  }

  lemma RewriteRoundTrip(r: Option<UrlRewrite>)
    ensures RewriteOf(WireRewriteOf(r)) == Some(r)
  {
    if r.Some? { SentIsSet(r.value.path); }
  }

  /** The parts of a route that are converted on their own. */
  datatype Parts = Parts(matcher: Option<Matcher>, target: Option<Target>, tls: Option<UpstreamTls>,
                         protocol: Option<Option<UpstreamProtocol>>,
                         cache: Option<Option<RouteCache>>, rewrite: Option<Option<UrlRewrite>>,
                         methods: Option<seq<string>>,
                         access: Option<seq<AccessRule>>, plugins: Option<seq<PluginSpec>>)

  function PartsOf(x: Syntax, ups: map<string, UpstreamGroup>, w: WireRoute): Parts {
    Parts(MatcherOf(x, w.rule), TargetOf(x, ups, w.action), TlsOf(w.tls), ProtocolOf(w.protocol), CacheOf(w.cache),
          RewriteOf(w.rewrite),
          MethodsOf(x, w.methods), Each(Access(x), w.access), Each(Plugins(x), w.plugins))
  }

  predicate Complete(p: Parts) {
    p.matcher.Some? && p.target.Some? && p.tls.Some? && p.protocol.Some? && p.cache.Some? && p.rewrite.Some?
    && p.methods.Some?
    && p.access.Some? && p.plugins.Some?
  }

  /** What has to hold between the parts. */
  predicate Fit(x: Syntax, p: Parts, http2: UpstreamHttp2)
    requires Complete(p)
  {
    && ProtocolFor(p.protocol.value, p.target.value).Some? && !(p.target.value.Scp? && p.cache.value.Some?)
    && RewriteOk(x, p.rewrite.value, p.target.value, p.matcher.value)
    && RedirectOk(x, p.target.value, p.matcher.value) && Http2Ok(http2)
  }

  function CompileRoute(x: Syntax, ups: map<string, UpstreamGroup>, w: WireRoute): Option<Content> {
    var p := PartsOf(x, ups, w);
    if !Complete(p) || !Fit(x, p, Http2Of(w.http2)) then None
    else Some(Content(p.matcher.value, p.target.value, p.rewrite.value, TimeoutsOf(w.timeouts),
                      ProtocolFor(p.protocol.value, p.target.value).value,
                      Http2Of(w.http2), p.tls.value,
                      ClientLimits(w.maxBody, w.bodyTimeout, w.sendTimeout, p.methods.value),
                      p.access.value, p.plugins.value, p.cache.value))
  }

  function WireRouteOf(x: Syntax, c: Content): WireRoute {
    WireRoute(Some(WireMatchOf(c.matcher)), Some(WireActionOf(c.target)), WireTimeoutsOf(c.timeouts),
              Map(WirePlugins(x), c.plugins),
              Some(WireTlsOf(c.tls)), WireProtocolOf(c.protocol), if c.cache.None? then None
              else Some(WireCacheOf(c.cache.value)),
              WireRewriteOf(c.rewrite), Some(c.http2), Map(WireAccess(x), c.access), c.limits.methods, c.limits.maxBody,
              c.limits.bodyTimeout, c.limits.sendTimeout)
  }

  /** Everything but the target is read back as it was. */
  lemma PartsRoundTrip(x: Syntax, ups: map<string, UpstreamGroup>, w: WireRoute)
    requires Faithful(x) && CompileRoute(x, ups, w).Some?
    ensures var c := CompileRoute(x, ups, w).value;
            PartsOf(x, ups, WireRouteOf(x, c))
            == Parts(Some(c.matcher), TargetOf(x, ups, Some(WireActionOf(c.target))), Some(c.tls), Some(c.protocol),
                     Some(c.cache), Some(c.rewrite), Some(c.limits.methods), Some(c.access), Some(c.plugins))
  {
    var c := CompileRoute(x, ups, w).value;
    MatcherRoundTrip(x, w.rule);
    TlsRoundTrip(w.tls);
    ProtocolRoundTrip(ProtocolOf(w.protocol).value, c.target);
    CacheRoundTrip(w.cache);
    RewriteRoundTrip(c.rewrite);
    MethodsRoundTrip(x, w.methods);
    AccessRoundTrip(x, w.access);
    PluginsRoundTrip(x, w.plugins);
  }

  /** A compiled route exports to a message that compiles to it exactly when its direct upstreams are stable. */
  lemma RouteRoundTrip(x: Syntax, ups: map<string, UpstreamGroup>, w: WireRoute)
    requires Faithful(x) && Keyed(ups) && CompileRoute(x, ups, w).Some?
    ensures var c := CompileRoute(x, ups, w).value;
            CompileRoute(x, ups, WireRouteOf(x, c)) == Some(c) <==> StableTarget(c.target, ups)
  {
    var c := CompileRoute(x, ups, w).value;
    PartsRoundTrip(x, ups, w);
    TargetRoundTrip(x, ups, w.action);
    ProtocolRoundTrip(ProtocolOf(w.protocol).value, c.target);
    assert TimeoutsOf(WireTimeoutsOf(c.timeouts)) == c.timeouts;
  }
}

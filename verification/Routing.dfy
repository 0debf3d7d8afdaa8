/** Request-time selection: virtual host and certificate by name, then the location. */
module Routing {
  import opened Common
  import opened Config
  import opened RouterBuild

  // ---- host names ----

  datatype Score = Score(exact: bool, len: nat)

  predicate Below(a: Score, b: Score) { (!a.exact && b.exact) || (a.exact == b.exact && a.len < b.len) }

  predicate EndsWith(s: string, suffix: string) { |suffix| <= |s| && s[|s| - |suffix|..] == suffix }

  function HostnameScore(pattern: string, host: string): Option<Score> {
    if pattern == host then Some(Score(true, |pattern|))
    else if pattern == [] || pattern[0] != '*' then None
    else
      var suffix := pattern[1..];
      if suffix != [] && suffix[0] == '.' && |host| > |suffix| && EndsWith(host, suffix)
      then Some(Score(false, |suffix|)) else None
  }

  /** Two patterns that match a host never tie, and every match outranks the default. */
  lemma ScoresDiffer(p: string, q: string, host: string)
    requires HostnameScore(p, host).Some? && HostnameScore(q, host).Some?
    ensures p != q ==> HostnameScore(p, host).value != HostnameScore(q, host).value
    ensures Below(Score(false, 0), HostnameScore(p, host).value)
  {
    if p != host && q != host && |p| == |q| {
      assert p == ['*'] + p[1..] && q == ['*'] + q[1..];
    }
  }

  /** `p` is the most specific of the names that match. */
  ghost predicate BestName<V>(named: map<string, V>, host: string, p: string) {
    && p in named && HostnameScore(p, host).Some?
    && forall q :: q in named && q != p && HostnameScore(q, host).Some? ==>
                     Below(HostnameScore(q, host).value, HostnameScore(p, host).value)
  }

  lemma BestNameUnique<V, W>(these: map<string, V>, those: map<string, W>, host: string, p: string, q: string)
    requires these.Keys == those.Keys && BestName(these, host, p) && BestName(those, host, q)
    ensures p == q
  {
  }

  /** `max_by_key` over a hash map: any order of iteration, the last maximum wins. */
  method PickBest<V>(named: map<string, V>, host: string) returns (best: Option<string>)
    ensures best.Some? ==> BestName(named, host, best.value)
    ensures best.None? ==> forall q :: q in named ==> HostnameScore(q, host).None?
  {
    best := None;
    var todo := named.Keys;
    while todo != {}
      invariant todo <= named.Keys
      invariant best.Some? ==> best.value in named && best.value !in todo && HostnameScore(best.value, host).Some?
      invariant best.Some? ==>
                  forall q :: q in named && q !in todo && q != best.value && HostnameScore(q, host).Some? ==>
                                Below(HostnameScore(q, host).value, HostnameScore(best.value, host).value)
      invariant best.None? ==> forall q :: q in named && q !in todo ==> HostnameScore(q, host).None?
      decreases |todo|
    {
      var name :| name in todo;
      todo := todo - {name};
      var score := HostnameScore(name, host);
      if score.Some? {
        if best.Some? {
          ScoresDiffer(best.value, name, host);
        }
        if best.None? || !Below(score.value, HostnameScore(best.value, host).value) {
          best := Some(name);
        }
      }
    }
  }

  /** The routes of the best name, or the default. */
  ghost predicate HostRoutes(hosts: VirtualHosts, host: Option<string>, routes: Option<Routes>) {
    if host.Some? && exists p :: p in hosts.named && HostnameScore(p, host.value).Some?
    then exists p :: BestName(hosts.named, host.value, p) && routes == Some(hosts.named[p])
    else routes == hosts.default
  }

  method SelectServerRoutes(hosts: VirtualHosts, host: Option<string>) returns (routes: Option<Routes>)
    ensures HostRoutes(hosts, host, routes)
  {
    if host.Some? {
      var best := PickBest(hosts.named, host.value);
      if best.Some? {
        return Some(hosts.named[best.value]);
      }
    }
    return hosts.default;
  }

  /** The certificate for a handshake: by name, else the default, else any certificate at all. */
  method SelectListenerTls(tls: ListenerTls, serverName: Option<string>) returns (identity: Option<TlsIdentity>)
    ensures serverName.Some? && (exists p :: p in tls.named && HostnameScore(p, Normalize(serverName.value)).Some?) ==>
              exists p :: BestName(tls.named, Normalize(serverName.value), p) && identity == Some(tls.named[p])
    ensures !(serverName.Some? && exists p :: p in tls.named && HostnameScore(p, Normalize(serverName.value)).Some?) ==>
              if tls.default.Some? then identity == tls.default
              else if tls.named == map[] then identity == None
              else identity.Some? && identity.value in tls.named.Values
  {
    if serverName.Some? {
      var best := PickBest(tls.named, Normalize(serverName.value));
      if best.Some? {
        return Some(tls.named[best.value]);
      }
    }
    if tls.default.Some? {
      return tls.default;
    }
    if tls.named == map[] {
      return None;
    }
    var any :| any in tls.named;
    return Some(tls.named[any]);
  }

  /**
    * On a TLS listener all of whose blocks have a certificate, a name that some pattern matches gets
    * its certificate and its routes from one and the same block.
    */
  lemma CertificateAndHostAgree<L>(fe: Frontend<L>, b: Build, servers: seq<Server<L>>, key: ListenKey, host: string,
                                   p: string, q: string) returns (i: nat)
    requires b.router.listeners == map[] && b.router.tls == map[] && AddServers(fe, b, servers).Ok?
    requires key.ssl && Certified(servers, key)
    requires BestName(HostsAt(AddServers(fe, b, servers).value.router, key).named, host, p)
    requires BestName(TlsNames(AddServers(fe, b, servers).value.router, key), host, q)
    ensures i < |servers| && ListedOn(servers[i].listens, key) && p in NameSet(servers[i].names)
    ensures HostsAt(AddServers(fe, b, servers).value.router, key).named[p] == Blocks(fe, b, servers)[i]
    ensures Some(TlsNames(AddServers(fe, b, servers).value.router, key)[q])
         == IdentityOf(servers[i], b.router.letsEncrypt)
  {
    RoutesFollowOwners(fe, b, servers, key);
    CertsFollowOwners(fe, b, servers, key);
    var r := AddServers(fe, b, servers).value.router;
    BestNameUnique(HostsAt(r, key).named, TlsNames(r, key), host, p, q);
    OwnerLists(servers, key, p);
    i := Owners(servers, key)[p];
  }

  // ---- nginx locations ----

  /** Whether a regular expression, case-insensitive or not, matches a path. */
  type RegexMatcher = (string, bool, string) -> bool

  predicate ExactAt(routes: Routes, i: nat, path: string) {
    i < |routes| && routes[i].content.matcher == Exact(path)
  }

  predicate RegexAt(routes: Routes, i: nat, path: string, re: RegexMatcher) {
    i < |routes| && routes[i].content.matcher.Regex?
    && re(routes[i].content.matcher.pattern, routes[i].content.matcher.caseInsensitive, path)
  }

  predicate PrefixAt(routes: Routes, i: nat, path: string) {
    i < |routes| && routes[i].content.matcher.Prefix? && routes[i].content.matcher.path <= path
  }

  predicate PreferAt(routes: Routes, i: nat, path: string) {
    i < |routes| && routes[i].content.matcher.PreferPrefix? && routes[i].content.matcher.path <= path
  }

  function PathLen(routes: Routes, i: nat): nat
    requires i < |routes| && (routes[i].content.matcher.Prefix? || routes[i].content.matcher.PreferPrefix?)
  {
    |routes[i].content.matcher.path|
  }

  ghost predicate FirstExact(routes: Routes, path: string, i: nat) {
    ExactAt(routes, i, path) && forall j :: 0 <= j < i ==> !ExactAt(routes, j, path)
  }

  ghost predicate FirstRegex(routes: Routes, path: string, re: RegexMatcher, i: nat) {
    RegexAt(routes, i, path, re) && forall j :: 0 <= j < i ==> !RegexAt(routes, j, path, re)
  }

  /** The longest matching prefix, the earliest of equals, among the first `n` locations. */
  ghost predicate LongestPrefix(routes: Routes, path: string, i: nat, n: nat) {
    i < n && PrefixAt(routes, i, path)
    && forall j :: 0 <= j < n && j != i && PrefixAt(routes, j, path) ==>
                     PathLen(routes, j) < PathLen(routes, i) || (PathLen(routes, j) == PathLen(routes, i) && i < j)
  }

  ghost predicate LongestPrefer(routes: Routes, path: string, i: nat, n: nat) {
    i < n && PreferAt(routes, i, path)
    && forall j :: 0 <= j < n && j != i && PreferAt(routes, j, path) ==>
                     PathLen(routes, j) < PathLen(routes, i) || (PathLen(routes, j) == PathLen(routes, i) && i < j)
  }

  /** Exact, then the longest `^~`, then the first regular expression, then the longest prefix. */
  ghost predicate Chosen(routes: Routes, path: string, re: RegexMatcher, r: Option<nat>) {
    if exists i :: ExactAt(routes, i, path) then r.Some? && FirstExact(routes, path, r.value)
    else if exists i :: PreferAt(routes, i, path) then r.Some? && LongestPrefer(routes, path, r.value, |routes|)
    else if exists i :: RegexAt(routes, i, path, re) then r.Some? && FirstRegex(routes, path, re, r.value)
    else if exists i :: PrefixAt(routes, i, path) then r.Some? && LongestPrefix(routes, path, r.value, |routes|)
    else r == None
  }

  /** The order determines the choice. */
  lemma ChosenUnique(routes: Routes, path: string, re: RegexMatcher, r: Option<nat>, q: Option<nat>)
    requires Chosen(routes, path, re, r) && Chosen(routes, path, re, q)
    ensures r == q
  {
    if r.Some? && q.Some? {
      FirstUnique(routes, path, re, r.value, q.value);
    }
  }

  lemma FirstUnique(routes: Routes, path: string, re: RegexMatcher, i: nat, j: nat)
    ensures FirstExact(routes, path, i) && FirstExact(routes, path, j) ==> i == j
    ensures FirstRegex(routes, path, re, i) && FirstRegex(routes, path, re, j) ==> i == j
  {
  }

  ghost predicate PrefixSoFar(routes: Routes, path: string, best: Option<nat>, n: nat) {
    match best
    case Some(b) => LongestPrefix(routes, path, b, n)
    case None => forall j :: 0 <= j < n ==> !PrefixAt(routes, j, path)
  }

  ghost predicate PreferSoFar(routes: Routes, path: string, best: Option<nat>, n: nat) {
    match best
    case Some(b) => LongestPrefer(routes, path, b, n)
    case None => forall j :: 0 <= j < n ==> !PreferAt(routes, j, path)
  }

  /** One more location, which is no better prefix. */
  lemma PrefixStays(routes: Routes, path: string, best: Option<nat>, n: nat)
    requires PrefixSoFar(routes, path, best, n) && n < |routes|
    requires PrefixAt(routes, n, path) ==> best.Some? && PathLen(routes, n) <= PathLen(routes, best.value)
    ensures PrefixSoFar(routes, path, best, n + 1)
  {
  }

  lemma PreferStays(routes: Routes, path: string, best: Option<nat>, n: nat)
    requires PreferSoFar(routes, path, best, n) && n < |routes|
    requires PreferAt(routes, n, path) ==> best.Some? && PathLen(routes, n) <= PathLen(routes, best.value)
    ensures PreferSoFar(routes, path, best, n + 1)
  {
  }

  /** One more location, which is a better prefix. */
  lemma PrefixBeaten(routes: Routes, path: string, best: Option<nat>, n: nat)
    requires PrefixSoFar(routes, path, best, n) && PrefixAt(routes, n, path)
    requires best.None? || PathLen(routes, best.value) < PathLen(routes, n)
    ensures PrefixSoFar(routes, path, Some(n), n + 1)
  {
  }

  lemma PreferBeaten(routes: Routes, path: string, best: Option<nat>, n: nat)
    requires PreferSoFar(routes, path, best, n) && PreferAt(routes, n, path)
    requires best.None? || PathLen(routes, best.value) < PathLen(routes, n)
    ensures PreferSoFar(routes, path, Some(n), n + 1)
  {
  }

  /** The first loop: an exact match ends it, otherwise the best prefixes of both kinds are known. */
  method ScanLocations(routes: Routes, path: string)
    returns (exact: Option<nat>, bestPrefix: Option<nat>, bestPrefer: Option<nat>)
    ensures exact.Some? ==> FirstExact(routes, path, exact.value)
    ensures exact.None? ==> forall j :: 0 <= j < |routes| ==> !ExactAt(routes, j, path)
    ensures exact.None? ==>
              PrefixSoFar(routes, path, bestPrefix, |routes|) && PreferSoFar(routes, path, bestPrefer, |routes|)
  {
    exact, bestPrefix, bestPrefer := None, None, None;
    for i := 0 to |routes|
      invariant forall j :: 0 <= j < i ==> !ExactAt(routes, j, path)
      invariant PrefixSoFar(routes, path, bestPrefix, i) && PreferSoFar(routes, path, bestPrefer, i)
    {
      var matcher := routes[i].content.matcher;
      if matcher == Exact(path) {
        return Some(i), bestPrefix, bestPrefer;
      }
      if PrefixAt(routes, i, path) && (bestPrefix.None? || PathLen(routes, i) > PathLen(routes, bestPrefix.value)) {
        PrefixBeaten(routes, path, bestPrefix, i);
        bestPrefix := Some(i);
      } else {
        PrefixStays(routes, path, bestPrefix, i);
      }
      if PreferAt(routes, i, path) && (bestPrefer.None? || PathLen(routes, i) > PathLen(routes, bestPrefer.value)) {
        PreferBeaten(routes, path, bestPrefer, i);
        bestPrefer := Some(i);
      } else {
        PreferStays(routes, path, bestPrefer, i);
      }
    }
  }

  /** The second loop. */
  method FindRegex(routes: Routes, path: string, re: RegexMatcher) returns (r: Option<nat>)
    ensures r.Some? ==> FirstRegex(routes, path, re, r.value)
    ensures r.None? ==> forall j :: 0 <= j < |routes| ==> !RegexAt(routes, j, path, re)
  {
    for i := 0 to |routes|
      invariant forall j :: 0 <= j < i ==> !RegexAt(routes, j, path, re)
    {
      if RegexAt(routes, i, path, re) {
        return Some(i);
      }
    }
    return None;
  }

  method SelectRouteTarget(routes: Routes, path: string, re: RegexMatcher) returns (r: Option<nat>)
    ensures Chosen(routes, path, re, r)
  {
    var exact, bestPrefix, bestPrefer := ScanLocations(routes, path);
    if exact.Some? {
      return exact;
    }
    if bestPrefer.Some? {
      return bestPrefer;
    }
    r := FindRegex(routes, path, re);
    if r.None? {
      r := bestPrefix;
    }
  }

  // ---- HTTP rules ----

  /** A request as the rules see it: its path, method, first header values and decoded query. */
  datatype Request = Request(path: string, verb: string, headers: map<string, string>, query: seq<(string, string)>)

  predicate PrefixMatches(prefix: string, path: string) {
    var p := TrimSlashes(prefix);
    path == p || (p <= path && |path| > |p| && path[|p|] == '/')
  }

  /** The first value of a query parameter. */
  function QueryValue(query: seq<(string, string)>, name: string): Option<string> {
    if query == [] then None else if query[0].0 == name then Some(query[0].1) else QueryValue(query[1..], name)
  }

  predicate Matches(m: HttpMatch, r: Request) {
    && (match m.path case ExactPath(p) => p == r.path case PathPrefix(p) => PrefixMatches(p, r.path))
    && (m.verb.Some? ==> m.verb.value == r.verb)
    && (forall i :: 0 <= i < |m.headers| ==> m.headers[i].0 in r.headers && r.headers[m.headers[i].0] == m.headers[i].1)
    && (forall i :: 0 <= i < |m.query| ==> QueryValue(r.query, m.query[i].0) == Some(m.query[i].1))
  }

  datatype MatchScore = MatchScore(exact: bool, len: nat, hasMethod: bool, headers: nat, query: nat)

  function ScoreOf(m: HttpMatch): MatchScore {
    MatchScore(m.path.ExactPath?, |m.path.path|, m.verb.Some?, |m.headers|, |m.query|)
  }

  /** Lexicographic order on match scores. */
  predicate Weaker(a: MatchScore, b: MatchScore) {
    if a.exact != b.exact then b.exact
    else if a.len != b.len then a.len < b.len
    else if a.hasMethod != b.hasMethod then b.hasMethod
    else if a.headers != b.headers then a.headers < b.headers
    else a.query < b.query
  }

  predicate HasRules(routes: Routes) { exists i :: 0 <= i < |routes| && routes[i].content.matcher.Http? }

  predicate Hit(routes: Routes, i: nat, r: Request) {
    i < |routes| && routes[i].content.matcher.Http? && Matches(routes[i].content.matcher.rule, r)
  }

  function RuleScore(routes: Routes, i: nat): MatchScore
    requires i < |routes| && routes[i].content.matcher.Http?
  {
    ScoreOf(routes[i].content.matcher.rule)
  }

  /** The strongest matching rule, the earliest of equals, among the first `n` locations. */
  ghost predicate StrongestHit(routes: Routes, r: Request, i: nat, n: nat) {
    i < n && Hit(routes, i, r)
    && forall j :: 0 <= j < n && j != i && Hit(routes, j, r) ==>
                     Weaker(RuleScore(routes, j), RuleScore(routes, i))
                     || (RuleScore(routes, j) == RuleScore(routes, i) && i < j)
  }

  method StrongestRule(routes: Routes, r: Request) returns (best: Option<nat>)
    ensures best.Some? ==> StrongestHit(routes, r, best.value, |routes|)
    ensures best.None? ==> forall i :: 0 <= i < |routes| ==> !Hit(routes, i, r)
  {
    best := None;
    for i := 0 to |routes|
      invariant best.Some? ==> StrongestHit(routes, r, best.value, i)
      invariant best.None? ==> forall j :: 0 <= j < i ==> !Hit(routes, j, r)
    {
      if routes[i].content.matcher.Http? && Matches(routes[i].content.matcher.rule, r) {
        assert Hit(routes, i, r);
        if best.None? || Weaker(RuleScore(routes, best.value), RuleScore(routes, i)) {
          best := Some(i);
        }
      }
    }
  }

  // ---- candidates ----

  datatype Candidate = Candidate(score: Score, routes: Routes)

  /** Everything a request may be routed by: matching names, and the default below all of them. */
  ghost predicate IsCandidate(hosts: VirtualHosts, host: Option<string>, c: Candidate) {
    || (hosts.default == Some(c.routes) && c.score == Score(false, 0))
    || (host.Some? && exists n :: n in hosts.named && HostnameScore(n, host.value) == Some(c.score)
                                  && c.routes == hosts.named[n])
  }

  lemma CandidatesDiffer(hosts: VirtualHosts, host: Option<string>, c: Candidate, d: Candidate)
    requires IsCandidate(hosts, host, c) && IsCandidate(hosts, host, d) && c.score == d.score
    ensures c == d
  {
    if c.score != Score(false, 0) {
      var n :| n in hosts.named && HostnameScore(n, host.value) == Some(c.score) && c.routes == hosts.named[n];
      var m :| m in hosts.named && HostnameScore(m, host.value) == Some(d.score) && d.routes == hosts.named[m];
      ScoresDiffer(n, m, host.value);
    } else if host.Some? {
      forall n | n in hosts.named && HostnameScore(n, host.value).Some?
        ensures HostnameScore(n, host.value).value != Score(false, 0) {
        ScoresDiffer(n, n, host.value);
      }
    }
  }

  predicate Descending(cs: seq<Candidate>) { forall i, j :: 0 <= i < j < |cs| ==> Below(cs[j].score, cs[i].score) }

  ghost predicate Lists(cs: seq<Candidate>, hosts: VirtualHosts, host: Option<string>) {
    forall c :: c in cs <==> IsCandidate(hosts, host, c)
  }

  predicate Distinct(cs: seq<Candidate>) { forall i, j :: 0 <= i < j < |cs| ==> cs[i].score != cs[j].score }

  function Insert(cs: seq<Candidate>, c: Candidate): (r: seq<Candidate>)
    requires Descending(cs) && forall d :: d in cs ==> d.score != c.score
    ensures Descending(r) && forall d :: d in r <==> d in cs || d == c
  {
    if cs == [] then [c]
    else if Below(cs[0].score, c.score) then
      var r := [c] + cs;
      assert forall d :: d in r <==> d in cs || d == c;
      r
    else
      var rest := Insert(cs[1..], c);
      var r := [cs[0]] + rest;
      assert cs == [cs[0]] + cs[1..];
      assert forall d :: d in rest ==> Below(d.score, cs[0].score);
      r
  }

  /** The descending sort by score; scores never tie, so stability is not an issue. */
  function Sorted(cs: seq<Candidate>): (r: seq<Candidate>)
    requires Distinct(cs)
    ensures Descending(r) && forall d :: d in r <==> d in cs
  {
    if cs == [] then []
    else
      var front, last := cs[..|cs| - 1], cs[|cs| - 1];
      assert cs == front + [last];
      Insert(Sorted(front), last)
  }

  /** Collects the candidates in arbitrary hash-map order, the default last, and sorts them. */
  method Candidates(hosts: VirtualHosts, host: Option<string>) returns (cs: seq<Candidate>)
    ensures Descending(cs) && Lists(cs, hosts, host)
  {
    cs := [];
    if host.Some? {
      cs := NamedCandidates(hosts.named, host.value);
    }
    if hosts.default.Some? {
      forall c | c in cs ensures c.score != Score(false, 0) {
        var n :| n in hosts.named && HostnameScore(n, host.value) == Some(c.score) && c.routes == hosts.named[n];
        ScoresDiffer(n, n, host.value);
      }
      cs := cs + [Candidate(Score(false, 0), hosts.default.value)];
    }
    cs := Sorted(cs);
  }

  method NamedCandidates(named: map<string, Routes>, host: string) returns (cs: seq<Candidate>)
    ensures Distinct(cs)
    ensures forall c :: c in cs
                        <==> exists n :: n in named && HostnameScore(n, host) == Some(c.score) && c.routes == named[n]
  {
    cs := [];
    var todo := named.Keys;
    while todo != {}
      invariant todo <= named.Keys && Distinct(cs)
      invariant forall c :: c in cs
                            <==> exists n :: n in named && n !in todo && HostnameScore(n, host) == Some(c.score)
                                             && c.routes == named[n]
      decreases |todo|
    {
      var name :| name in todo;
      todo := todo - {name};
      var score := HostnameScore(name, host);
      if score.Some? {
        forall c | c in cs ensures c.score != score.value {
          var n :| n in named && n !in todo && n != name && HostnameScore(n, host) == Some(c.score);
          ScoresDiffer(n, name, host);
        }
        cs := cs + [Candidate(score.value, named[name])];
      }
    }
  }

  // ---- the route of a request ----

  /** In the leading run: this candidate and all above it consist of HTTP rules. */
  ghost predicate Reached(hosts: VirtualHosts, host: Option<string>, c: Candidate) {
    && IsCandidate(hosts, host, c) && HasRules(c.routes)
    && forall d :: IsCandidate(hosts, host, d) && Below(c.score, d.score) ==> HasRules(d.routes)
  }

  /** Best by host score, then match score, then position. */
  ghost predicate Wins(hosts: VirtualHosts, host: Option<string>, r: Request, c: Candidate, i: nat) {
    && Reached(hosts, host, c) && StrongestHit(c.routes, r, i, |c.routes|)
    && forall d, j :: Reached(hosts, host, d) && Below(c.score, d.score) ==> !Hit(d.routes, j, r)
  }

  ghost predicate RuleApplies(hosts: VirtualHosts, host: Option<string>, r: Request) {
    exists c, i :: Reached(hosts, host, c) && Hit(c.routes, i, r)
  }

  /** The nginx choice among the locations of the best host. */
  ghost predicate FallsBack(hosts: VirtualHosts, host: Option<string>, r: Request, re: RegexMatcher,
                            loc: Option<Location>) {
    exists routes :: HostRoutes(hosts, host, routes)
                     && (if routes.None? then loc == None else Picks(routes.value, r, re, loc))
  }

  ghost predicate Picks(routes: Routes, r: Request, re: RegexMatcher, loc: Option<Location>) {
    exists k: Option<nat> :: Chosen(routes, r.path, re, k) && loc == if k.Some? then Some(routes[k.value]) else None
  }

  ghost predicate RoutedTo(hosts: VirtualHosts, host: Option<string>, r: Request, re: RegexMatcher,
                           loc: Option<Location>) {
    if RuleApplies(hosts, host, r) then exists c, i: nat :: Wins(hosts, host, r, c, i) && loc == Some(c.routes[i])
    else FallsBack(hosts, host, r, re, loc)
  }

  method ResolveRoute(hosts: VirtualHosts, host: Option<string>, r: Request, re: RegexMatcher)
    returns (loc: Option<Location>)
    ensures RoutedTo(hosts, host, r, re, loc)
  {
    var cs := Candidates(hosts, host);
    var k := 0;
    while k < |cs| && HasRules(cs[k].routes)
      invariant 0 <= k <= |cs|
      invariant forall m :: 0 <= m < k ==> HasRules(cs[m].routes)
      invariant forall m, i :: 0 <= m < k ==> !Hit(cs[m].routes, i, r)
    {
      var best := StrongestRule(cs[k].routes, r);
      if best.Some? {
        LeadingRun(hosts, host, cs, k);
        assert Hit(cs[k].routes, best.value, r);
        assert Wins(hosts, host, r, cs[k], best.value) by {
          forall d | Reached(hosts, host, d) && Below(cs[k].score, d.score)
            ensures forall j: nat :: !Hit(d.routes, j, r) {
            AboveIsEarlier(hosts, host, cs, k, d);
          }
        }
        return Some(cs[k].routes[best.value]);
      }
      k := k + 1;
    }
    assert !RuleApplies(hosts, host, r) by {
      forall c | Reached(hosts, host, c) ensures forall j: nat :: !Hit(c.routes, j, r) {
        ReachedIsEarly(hosts, host, cs, k, c);
      }
    }
    var routes := SelectServerRoutes(hosts, host);
    if routes.None? {
      assert FallsBack(hosts, host, r, re, None);
      return None;
    }
    var chosen := SelectRouteTarget(routes.value, r.path, re);
    loc := if chosen.Some? then Some(routes.value[chosen.value]) else None;
    assert Picks(routes.value, r, re, loc);
    assert FallsBack(hosts, host, r, re, loc);
  }

  /** A candidate whose predecessors all have rules is reached. */
  lemma LeadingRun(hosts: VirtualHosts, host: Option<string>, cs: seq<Candidate>, k: nat)
    requires Descending(cs) && Lists(cs, hosts, host) && k < |cs|
    requires forall m :: 0 <= m <= k ==> HasRules(cs[m].routes)
    ensures Reached(hosts, host, cs[k])
  {
    assert cs[k] in cs;
    forall d | IsCandidate(hosts, host, d) && Below(cs[k].score, d.score) ensures HasRules(d.routes) {
      AboveIsEarlier(hosts, host, cs, k, d);
    }
  }

  lemma AboveIsEarlier(hosts: VirtualHosts, host: Option<string>, cs: seq<Candidate>, k: nat, d: Candidate)
    requires Descending(cs) && Lists(cs, hosts, host) && k < |cs| && IsCandidate(hosts, host, d)
    requires Below(cs[k].score, d.score)
    ensures exists m :: 0 <= m < k && cs[m] == d
  {
    assert d in cs;
    var m :| 0 <= m < |cs| && cs[m] == d;
    assert m != k && !(k < m);
  }

  /** If the run stops at `k`, every reached candidate comes before it. */
  lemma ReachedIsEarly(hosts: VirtualHosts, host: Option<string>, cs: seq<Candidate>, k: nat, c: Candidate)
    requires Descending(cs) && Lists(cs, hosts, host) && k <= |cs| && (k < |cs| ==> !HasRules(cs[k].routes))
    requires Reached(hosts, host, c)
    ensures exists m :: 0 <= m < k && cs[m] == c
  {
    assert c in cs;
    var m :| 0 <= m < |cs| && cs[m] == c;
    if k < |cs| {
      assert cs[k] in cs;
      assert IsCandidate(hosts, host, cs[k]);
    }
  }

  /** The winner is unique, so the answer does not depend on the order in which the hash map is walked. */
  lemma WinnerUnique(hosts: VirtualHosts, host: Option<string>, r: Request, c: Candidate, i: nat, d: Candidate, j: nat)
    requires Wins(hosts, host, r, c, i) && Wins(hosts, host, r, d, j)
    ensures c == d && i == j
  {
    assert Hit(c.routes, i, r) && Hit(d.routes, j, r);
    assert !Below(c.score, d.score) && !Below(d.score, c.score);
    CandidatesDiffer(hosts, host, c, d);
  }

  lemma HostRoutesUnique(hosts: VirtualHosts, host: Option<string>, x: Option<Routes>, y: Option<Routes>)
    requires HostRoutes(hosts, host, x) && HostRoutes(hosts, host, y)
    ensures x == y
  {
    if host.Some? && exists p :: p in hosts.named && HostnameScore(p, host.value).Some? {
      var p :| BestName(hosts.named, host.value, p) && x == Some(hosts.named[p]);
      var q :| BestName(hosts.named, host.value, q) && y == Some(hosts.named[q]);
      BestNameUnique(hosts.named, hosts.named, host.value, p, q);
    }
  }

  lemma PicksUnique(routes: Routes, r: Request, re: RegexMatcher, x: Option<Location>, y: Option<Location>)
    requires Picks(routes, r, re, x) && Picks(routes, r, re, y)
    ensures x == y
  {
    var k: Option<nat> :| Chosen(routes, r.path, re, k) && x == if k.Some? then Some(routes[k.value]) else None;
    var m: Option<nat> :| Chosen(routes, r.path, re, m) && y == if m.Some? then Some(routes[m.value]) else None;
    ChosenUnique(routes, r.path, re, k, m);
  }

  /** The declarative order determines the location, whatever the order of hash-map iteration. */
  lemma RouteDetermined(hosts: VirtualHosts, host: Option<string>, r: Request, re: RegexMatcher, x: Option<Location>,
                        y: Option<Location>)
    requires RoutedTo(hosts, host, r, re, x) && RoutedTo(hosts, host, r, re, y)
    ensures x == y
  {
    if RuleApplies(hosts, host, r) {
      var c, i: nat :| Wins(hosts, host, r, c, i) && x == Some(c.routes[i]);
      var d, j: nat :| Wins(hosts, host, r, d, j) && y == Some(d.routes[j]);
      WinnerUnique(hosts, host, r, c, i, d, j);
    } else {
      var p :| HostRoutes(hosts, host, p) && (if p.None? then x == None else Picks(p.value, r, re, x));
      var q :| HostRoutes(hosts, host, q) && (if q.None? then y == None else Picks(q.value, r, re, y));
      HostRoutesUnique(hosts, host, p, q);
      if p.Some? { PicksUnique(p.value, r, re, x, y); }
    }
  }
}

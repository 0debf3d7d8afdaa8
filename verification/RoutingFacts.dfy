/** What the rules of request-time selection mean, in segments of paths and labels of names. */
module RoutingFacts {
  import opened Common
  import opened Config
  import opened PathSegments
  import opened Segments
  import opened Routing

  // ---- path prefixes ----

  /** A prefix matches the paths that begin with its segments. */
  lemma PrefixBySegments(prefix: string, path: string)
    ensures PrefixMatches(prefix, path) <==> Closed(Split('/', prefix)) <= Split('/', path)
  {
    var p := TrimSlashes(prefix);
    BelowBySegments(prefix, path);
    assert p + "/" <= path <==> p <= path && |path| > |p| && path[|p|] == '/';
  }

  predicate PathFits(m: PathMatch, path: string) {
    match m case ExactPath(p) => path == p case PathPrefix(p) => Closed(Split('/', p)) <= Split('/', path)
  }

  /** The value a query gives a name is that of its first entry. */
  predicate QueryHas(query: seq<(string, string)>, name: string, value: string) {
    exists i :: 0 <= i < |query| && query[i] == (name, value) && forall j :: 0 <= j < i ==> query[j].0 != name
  }

  lemma {:induction false} QueryFirst(query: seq<(string, string)>, name: string, value: string)
    ensures QueryValue(query, name) == Some(value) <==> QueryHas(query, name, value)
  {
    if query != [] {
      QueryFirst(query[1..], name, value);
      if query[0].0 == name {
        if query[0].1 == value { assert query[0] == (name, value); }
      } else {
        if QueryHas(query[1..], name, value) {
          var rest := query[1..];
          var i :| 0 <= i < |rest| && rest[i] == (name, value) && forall j :: 0 <= j < i ==> rest[j].0 != name;
          assert query[i + 1] == (name, value);
          forall j | 0 <= j < i + 1 ensures query[j].0 != name { if j > 0 { assert query[j] == query[1..][j - 1]; } }
        }
        if QueryHas(query, name, value) {
          var i :| 0 <= i < |query| && query[i] == (name, value) && forall j :: 0 <= j < i ==> query[j].0 != name;
          assert query[1..][i - 1] == (name, value);
          forall j | 0 <= j < i - 1 ensures query[1..][j].0 != name { assert query[1..][j] == query[j + 1]; }
        }
      }
    }
  }

  /**
    * The requests a rule takes: its path, or paths below it; its method; each of its headers with that value;
    * each of its query parameters with that value first.
    */
  lemma HitExactly(routes: Routes, i: nat, r: Request)
    requires i < |routes| && routes[i].content.matcher.Http?
    ensures var m := routes[i].content.matcher.rule;
            Hit(routes, i, r) <==>
            && PathFits(m.path, r.path) && (m.verb.None? || m.verb.value == r.verb)
            && (forall j :: 0 <= j < |m.headers| ==> (m.headers[j].0, m.headers[j].1) in r.headers.Items)
            && (forall j :: 0 <= j < |m.query| ==> QueryHas(r.query, m.query[j].0, m.query[j].1))
  {
    var m := routes[i].content.matcher.rule;
    if m.path.PathPrefix? { PrefixBySegments(m.path.path, r.path); }
    forall j | 0 <= j < |m.query|
      ensures QueryValue(r.query, m.query[j].0) == Some(m.query[j].1) <==> QueryHas(r.query, m.query[j].0, m.query[j].1)
    {
      QueryFirst(r.query, m.query[j].0, m.query[j].1);
    }
  }

  // ---- names ----

  /** The host has the labels of the base, and a name before them. */
  ghost predicate Under(base: string, host: string) {
    exists before :: before != [] && before != [""] && Split('.', host) == before + Split('.', base)
  }

  lemma UnderExactly(base: string, host: string)
    ensures Under(base, host) <==> |host| > |base| + 1 && EndsWith(host, ['.'] + base)
  {
    if Under(base, host) {
      var before :| before != [] && before != [""] && Split('.', host) == before + Split('.', base);
      EndsAtSeparator('.', before, base, host);
      JoinedNonEmpty('.', before);
      assert host[|host| - |base| - 1..] == ['.'] + base;
    }
    if |host| > |base| + 1 && EndsWith(host, ['.'] + base) {
      var w := host[..|host| - |base| - 1];
      assert host == w + ['.'] + base;
      SplitTwo('.', w, base);
      JoinedSplit('.', w);
      assert Split('.', w) != [""];
    }
  }

  lemma JoinedNonEmpty(c: char, pieces: seq<string>)
    requires pieces != [] && pieces != [""]
    ensures Joined(c, pieces) != []
  {
  }

  /** A pattern matches its own name, and with a star for its first label every name under the rest. */
  lemma MatchesByLabels(pattern: string, host: string)
    ensures HostnameScore(pattern, host).Some? <==>
            pattern == host || exists base :: pattern == "*." + base && Under(base, host)
  {
    if pattern != host && HostnameScore(pattern, host).Some? {
      var base := pattern[2..];
      assert pattern == "*." + base && pattern[1..] == ['.'] + base;
      UnderExactly(base, host);
    }
    if base :| pattern == "*." + base && Under(base, host) {
      UnderExactly(base, host);
      assert pattern[1..] == ['.'] + base;
    }
  }

  /** The name chosen is the host itself where that is listed, else the longest pattern that matches. */
  lemma BestNameIsNearest<V>(named: map<string, V>, host: string, p: string)
    ensures BestName(named, host, p) <==>
            && p in named && HostnameScore(p, host).Some? && (host in named ==> p == host)
            && forall q :: q in named && q != p && q != host && HostnameScore(q, host).Some? && p != host ==> |q| < |p|
  {
  }

  // ---- which rule wins ----

  /** A rule that wins is at least as specific as any other that matches, and the earlier of equals. */
  lemma WinnerIsSpecific(routes: Routes, r: Request, i: nat, j: nat)
    requires StrongestHit(routes, r, i, |routes|) && Hit(routes, j, r)
    ensures var a, b := routes[i].content.matcher.rule, routes[j].content.matcher.rule;
            && (b.path.ExactPath? ==> a.path.ExactPath?)
            && (a.path.ExactPath? == b.path.ExactPath? ==> |b.path.path| <= |a.path.path|)
            && (a.path.ExactPath? == b.path.ExactPath? && |b.path.path| == |a.path.path| ==>
                  && (b.verb.Some? ==> a.verb.Some?)
                  && (a.verb.Some? == b.verb.Some? ==> |b.headers| <= |a.headers|)
                  && (a.verb.Some? == b.verb.Some? && |b.headers| == |a.headers| ==>
                        |b.query| <= |a.query| && (|b.query| == |a.query| ==> i <= j)))
  {
    var a, b := RuleScore(routes, i), RuleScore(routes, j);
    assert i == j || Weaker(b, a) || (a == b && i < j);
  }

  /** A prefix as it is compiled: absolute, and without a slash at the end unless it is the root. */
  predicate Plain(p: string) { p == "/" || (p != "" && p[0] == '/' && p[|p| - 1] != '/') }

  predicate PlainRule(m: HttpMatch) { m.path.PathPrefix? ==> Plain(m.path.path) }

  /** Of two beginnings of a path, each up to a slash or the end, the shorter has the first segments of the longer. */
  lemma Nested(t: string, s: string, path: string)
    requires t <= path && s <= path && |t| <= |s| && (path == t || (|path| > |t| && path[|t|] == '/'))
    ensures Split('/', t) <= Split('/', s)
  {
    if |t| == |s| {
      assert t == s;
    } else {
      assert s[|t|] == path[|t|] && s == t + ['/'] + s[|t| + 1..];
    }
    StartsAtSeparator('/', t, s);
  }

  lemma PlainTrimmed(p: string)
    requires Plain(p)
    ensures TrimSlashes(p) == if p == "/" then "" else p
  {
    if p == "/" { assert p[..0] == ""; }
  }

  lemma DeeperIsLonger(p: string, q: string, path: string)
    requires Plain(p) && Plain(q) && |q| <= |p| && PrefixMatches(p, path) && PrefixMatches(q, path)
    ensures Closed(Split('/', q)) <= Closed(Split('/', p))
  {
    PlainTrimmed(p);
    PlainTrimmed(q);
    TrimmedIsClosed(p);
    TrimmedIsClosed(q);
    Nested(TrimSlashes(q), TrimSlashes(p), path);
  }

  /** Of several path prefixes that match, the deepest wins. */
  lemma DeepestPrefixWins(routes: Routes, r: Request, i: nat, j: nat)
    requires StrongestHit(routes, r, i, |routes|) && Hit(routes, j, r)
    requires PlainRule(routes[i].content.matcher.rule) && PlainRule(routes[j].content.matcher.rule)
    ensures var a, b := routes[i].content.matcher.rule.path, routes[j].content.matcher.rule.path;
            a.PathPrefix? ==> b.PathPrefix? && Closed(Split('/', b.path)) <= Closed(Split('/', a.path))
  {
    WinnerIsSpecific(routes, r, i, j);
    var a, b := routes[i].content.matcher.rule.path, routes[j].content.matcher.rule.path;
    if a.PathPrefix? { DeeperIsLonger(a.path, b.path, r.path); }
  }

  // ---- which location is chosen ----

  function MatcherAt(routes: Routes, i: nat): Matcher
    requires i < |routes|
  {
    routes[i].content.matcher
  }

  predicate IsPrefix(m: Matcher, strong: bool, path: string) {
    if strong then m.PreferPrefix? && m.path <= path else m.Prefix? && m.path <= path
  }

  predicate IsRegex(m: Matcher, path: string, re: RegexMatcher) {
    m.Regex? && re(m.pattern, m.caseInsensitive, path)
  }

  /** Location `k` has the longest prefix of its kind: all others that match are prefixes of it, or come later. */
  predicate Longest(routes: Routes, strong: bool, path: string, k: nat) {
    && k < |routes| && IsPrefix(MatcherAt(routes, k), strong, path)
    && forall j :: 0 <= j < |routes| && IsPrefix(MatcherAt(routes, j), strong, path) ==>
                     MatcherAt(routes, j).path <= MatcherAt(routes, k).path
                     && (MatcherAt(routes, j).path == MatcherAt(routes, k).path ==> k <= j)
  }

  lemma LongestMeans(routes: Routes, path: string, k: nat)
    ensures LongestPrefix(routes, path, k, |routes|) ==> Longest(routes, false, path, k)
    ensures LongestPrefer(routes, path, k, |routes|) ==> Longest(routes, true, path, k)
  {
    forall j: nat | j < |routes| && k < |routes|
      ensures PrefixAt(routes, j, path) <==> IsPrefix(MatcherAt(routes, j), false, path)
      ensures PreferAt(routes, j, path) <==> IsPrefix(MatcherAt(routes, j), true, path)
    {
    }
  }

  /**
    * The location chosen for a path: the first that is exactly it; else the longest preferred prefix of it; else the
    * first regular expression that matches; else the longest prefix; else none.
    */
  lemma ChosenMeans(routes: Routes, path: string, re: RegexMatcher, r: Option<nat>)
    requires Chosen(routes, path, re, r)
    ensures var n := |routes|;
            if exists i :: 0 <= i < n && MatcherAt(routes, i) == Exact(path) then
              && r.Some? && r.value < n && MatcherAt(routes, r.value) == Exact(path)
              && forall j :: 0 <= j < r.value ==> MatcherAt(routes, j) != Exact(path)
            else if exists i :: 0 <= i < n && IsPrefix(MatcherAt(routes, i), true, path) then
              r.Some? && Longest(routes, true, path, r.value)
            else if exists i :: 0 <= i < n && IsRegex(MatcherAt(routes, i), path, re) then
              && r.Some? && r.value < n && IsRegex(MatcherAt(routes, r.value), path, re)
              && forall j :: 0 <= j < r.value ==> !IsRegex(MatcherAt(routes, j), path, re)
            else if exists i :: 0 <= i < n && IsPrefix(MatcherAt(routes, i), false, path) then
              r.Some? && Longest(routes, false, path, r.value)
            else r == None
  {
    forall j: nat | j < |routes|
      ensures PrefixAt(routes, j, path) <==> IsPrefix(MatcherAt(routes, j), false, path)
      ensures PreferAt(routes, j, path) <==> IsPrefix(MatcherAt(routes, j), true, path)
      ensures ExactAt(routes, j, path) <==> MatcherAt(routes, j) == Exact(path)
      ensures RegexAt(routes, j, path, re) <==> IsRegex(MatcherAt(routes, j), path, re)
    {
    }
    if r.Some? { LongestMeans(routes, path, r.value); }
  }
}

/** Applying configuration snapshots to a running proxy: the restart boundary and what survives. */
module Control {
  import opened Common
  import opened Config
  import RouterBuild

  // ---- the restart boundary ----

  datatype ListenerFingerprint = ListenerFingerprint(protocol: Protocol, tls: Option<TlsSettings>)

  datatype Fingerprint = Fingerprint(
    geoip: Option<GeoIp>, listeners: map<ListenKey, ListenerFingerprint>, allowConnect: bool, h2c: bool,
    keepaliveRequests: Option<u32>, http2: Http2)

  function ProtocolAt(r: Router, key: ListenKey): Protocol {
    if key in r.protocols then r.protocols[key] else Protocol(false, false)
  }

  function RestartFingerprint(r: Router): Fingerprint {
    Fingerprint(r.geoip,
                map k | k in r.listeners ::
                  ListenerFingerprint(ProtocolAt(r, k), if k in r.tls then Some(r.tls[k].settings) else None),
                r.options.allowConnect, r.options.h2c, r.options.keepaliveRequests, r.options.http2)
  }

  // ---- plugin chains ----

  /** A chain of plugin objects, known by the specifications it was built from. */
  datatype Chain = Chain(specs: seq<PluginSpec>)

  type ChainBuilder = seq<PluginSpec> -> Result<Chain, string>

  /** Every chain in the map was built from the plugin list of the location with that id. */
  predicate OwnChains(chains: map<nat, Chain>, table: map<nat, Content>, build: ChainBuilder) {
    forall id :: id in chains ==> id in table && build(table[id].plugins) == Ok(chains[id])
  }

  predicate Covered(routes: Routes, chains: map<nat, Chain>) {
    forall i :: 0 <= i < |routes| ==> routes[i].routeId in chains
  }

  predicate HostsCovered(hosts: VirtualHosts, chains: map<nat, Chain>) {
    (forall n :: n in hosts.named ==> Covered(hosts.named[n], chains))
    && (hosts.default.Some? ==> Covered(hosts.default.value, chains))
  }

  predicate RoutesFail(routes: Routes, build: ChainBuilder) {
    exists i :: 0 <= i < |routes| && build(routes[i].content.plugins).Err?
  }

  predicate HostsFail(hosts: VirtualHosts, build: ChainBuilder) {
    (exists n :: n in hosts.named && RoutesFail(hosts.named[n], build))
    || (hosts.default.Some? && RoutesFail(hosts.default.value, build))
  }

  /** Some location of the router has a plugin list that does not build. */
  predicate RouterFails(r: Router, build: ChainBuilder) {
    exists k :: k in r.listeners && HostsFail(r.listeners[k], build)
  }

  /** Skips locations whose id already has a chain. */
  method CollectFromServer(routes: Routes, build: ChainBuilder, chains: map<nat, Chain>, ghost table: map<nat, Content>)
    returns (r: Result<map<nat, Chain>, string>)
    requires RouterBuild.RoutesIn(routes, table) && OwnChains(chains, table, build)
    ensures r.Ok? ==> chains.Keys <= r.value.Keys && OwnChains(r.value, table, build) && Covered(routes, r.value)
    ensures r.Err? <==> RoutesFail(routes, build)
  {
    var out := chains;
    for i := 0 to |routes|
      invariant chains.Keys <= out.Keys && OwnChains(out, table, build) && Covered(routes[..i], out)
      invariant forall j :: 0 <= j < i ==> build(routes[j].content.plugins).Ok?
    {
      var id := routes[i].routeId;
      if id !in out {
        var chain := build(routes[i].content.plugins);
        if chain.Err? {
          return Err(chain.error);
        }
        out := out[id := chain.value];
      } else {
        assert id in table && routes[i].content == table[id];
      }
    }
    return Ok(out);
  }

  method CollectFromHosts(hosts: VirtualHosts, build: ChainBuilder, chains: map<nat, Chain>,
                          ghost table: map<nat, Content>)
    returns (r: Result<map<nat, Chain>, string>)
    requires RouterBuild.HostsIn(hosts, table) && OwnChains(chains, table, build)
    ensures r.Ok? ==> chains.Keys <= r.value.Keys && OwnChains(r.value, table, build) && HostsCovered(hosts, r.value)
    ensures r.Err? <==> HostsFail(hosts, build)
  {
    r := Ok(chains);
    var todo := hosts.named.Keys;
    while todo != {}
      invariant todo <= hosts.named.Keys
      invariant r.Ok? && chains.Keys <= r.value.Keys && OwnChains(r.value, table, build)
      invariant forall n :: n in hosts.named && n !in todo ==>
                              Covered(hosts.named[n], r.value) && !RoutesFail(hosts.named[n], build)
      decreases |todo|
    {
      var name :| name in todo;
      todo := todo - {name};
      r := CollectFromServer(hosts.named[name], build, r.value, table);
      if r.Err? {
        return;
      }
    }
    if hosts.default.Some? {
      r := CollectFromServer(hosts.default.value, build, r.value, table);
    }
  }

  /** Whatever the order in which listeners and hosts are walked, every location gets the chain of its own plugins. */
  method BuildPluginChains(router: Router, build: ChainBuilder, ghost table: map<nat, Content>)
    returns (r: Result<map<nat, Chain>, string>)
    requires RouterBuild.RouterIn(router, table)
    ensures r.Ok? ==> OwnChains(r.value, table, build)
    ensures r.Ok? ==> forall k :: k in router.listeners ==> HostsCovered(router.listeners[k], r.value)
    ensures r.Err? <==> RouterFails(router, build)
  {
    r := Ok(map[]);
    var todo := router.listeners.Keys;
    while todo != {}
      invariant todo <= router.listeners.Keys
      invariant r.Ok? && OwnChains(r.value, table, build)
      invariant forall k :: k in router.listeners && k !in todo ==>
                              HostsCovered(router.listeners[k], r.value) && !HostsFail(router.listeners[k], build)
      decreases |todo|
    {
      var key :| key in todo;
      todo := todo - {key};
      r := CollectFromHosts(router.listeners[key], build, r.value, table);
      if r.Err? {
        return;
      }
    }
  }

  /**
    * In a router compiled from server blocks each location finds under its id exactly the chain built from its
    * own list.
    */
  lemma EveryLocationHasItsChain<L>(fe: RouterBuild.Frontend<L>, b: RouterBuild.Build,
                                    servers: seq<RouterBuild.Server<L>>, table: map<nat, Content>,
                                    chains: map<nat, Chain>, build: ChainBuilder, l: Location)
    requires b.router.listeners == map[] && RouterBuild.AddServers(fe, b, servers).Ok?
    requires var r := RouterBuild.AddServers(fe, b, servers).value.router;
             && RouterBuild.RouterIn(r, table) && RouterBuild.Holds(r, l) && OwnChains(chains, table, build)
             && forall k :: k in r.listeners ==> HostsCovered(r.listeners[k], chains)
    ensures l.routeId in chains && build(l.content.plugins) == Ok(chains[l.routeId])
  {
    var r := RouterBuild.AddServers(fe, b, servers).value.router;
    RouterBuild.HeldInTable(r, table, l);
    var k, routes :| k in r.listeners && RouterBuild.Serves(r.listeners[k], routes) && l in routes;
    assert HostsCovered(r.listeners[k], chains);
    assert Covered(routes, chains);
  }

  // ---- upstream groups ----

  /** A running group: which object it is, and the configuration it was built from. */
  datatype Handle = Handle(id: nat, config: UpstreamGroup)

  /** The previous object where the configuration under the name is unchanged, otherwise a fresh one. */
  ghost predicate HandleOk(before: map<string, UpstreamGroup>, held: map<string, Handle>, n: string,
                           config: UpstreamGroup, lo: nat, hi: nat, h: Handle) {
    if Kept(before, held, n, config) then h == held[n]
    else lo <= h.id < hi && h.config == config
  }

  /** Fresh ids, from `lo` on, are each used for one name. */
  ghost predicate FreshOnce(groups: map<string, Handle>, lo: nat) {
    forall n, m :: n in groups && m in groups && lo <= groups[n].id && groups[n].id == groups[m].id ==> n == m
  }

  ghost predicate GroupsBuilt(before: map<string, UpstreamGroup>, held: map<string, Handle>,
                              upstreams: map<string, UpstreamGroup>, lo: nat, hi: nat, groups: map<string, Handle>) {
    && groups.Keys <= upstreams.Keys && lo <= hi && FreshOnce(groups, lo)
    && forall n :: n in groups ==> groups[n].id < hi && HandleOk(before, held, n, upstreams[n], lo, hi, groups[n])
  }

  lemma OneMoreGroup(before: map<string, UpstreamGroup>, held: map<string, Handle>,
                     upstreams: map<string, UpstreamGroup>, lo: nat, hi: nat, groups: map<string, Handle>, name: string,
                     h: Handle, next: nat)
    requires GroupsBuilt(before, held, upstreams, lo, hi, groups) && name in upstreams && name !in groups
    requires hi <= next && h.id < next && (lo <= h.id ==> hi <= h.id)
    requires HandleOk(before, held, name, upstreams[name], lo, next, h)
    ensures GroupsBuilt(before, held, upstreams, lo, next, groups[name := h])
  {
    var more := groups[name := h];
    forall n | n in more ensures more[n].id < next && HandleOk(before, held, n, upstreams[n], lo, next, more[n]) {
      if n != name { assert HandleOk(before, held, n, upstreams[n], lo, hi, groups[n]); }
    }
  }

  /** The running object can be kept: it was built from the same configuration under the same name. */
  predicate Kept(before: map<string, UpstreamGroup>, held: map<string, Handle>, n: string, config: UpstreamGroup) {
    n in before && before[n] == config && n in held
  }

  /** Some new or changed group cannot be built. */
  predicate GroupsFail(before: map<string, UpstreamGroup>, held: map<string, Handle>,
                       upstreams: map<string, UpstreamGroup>, buildable: UpstreamGroup -> bool) {
    exists n :: n in upstreams && !Kept(before, held, n, upstreams[n]) && !buildable(upstreams[n])
  }

  /** One group: the running object, or a new one, or none. */
  method GroupFor(before: map<string, UpstreamGroup>, held: map<string, Handle>, name: string, config: UpstreamGroup,
                  buildable: UpstreamGroup -> bool, ghost lo: nat, hi: nat) returns (h: Option<Handle>, next: nat)
    requires lo <= hi && forall n :: n in held ==> held[n].id < lo
    ensures hi <= next && (h.None? <==> !Kept(before, held, name, config) && !buildable(config))
    ensures h.Some? ==> HandleOk(before, held, name, config, lo, next, h.value) && h.value.id < next
                        && (lo <= h.value.id ==> hi <= h.value.id)
  {
    if Kept(before, held, name, config) {
      return Some(held[name]), hi;
    }
    if !buildable(config) {
      return None, hi;
    }
    return Some(Handle(hi, config)), hi + 1;
  }

  method BuildGroups(before: map<string, UpstreamGroup>, held: map<string, Handle>,
                     upstreams: map<string, UpstreamGroup>, buildable: UpstreamGroup -> bool, lo: nat)
    returns (r: Option<map<string, Handle>>, hi: nat)
    requires forall n :: n in held ==> held[n].id < lo
    ensures lo <= hi
    ensures r.Some? ==> r.value.Keys == upstreams.Keys && GroupsBuilt(before, held, upstreams, lo, hi, r.value)
    ensures r.None? <==> GroupsFail(before, held, upstreams, buildable)
  {
    hi := lo;
    var groups: map<string, Handle> := map[];
    var todo := upstreams.Keys;
    while todo != {}
      invariant todo <= upstreams.Keys && groups.Keys == upstreams.Keys - todo && lo <= hi
      invariant GroupsBuilt(before, held, upstreams, lo, hi, groups)
      invariant forall n :: n in upstreams && n !in todo ==>
                              Kept(before, held, n, upstreams[n]) || buildable(upstreams[n])
      decreases |todo|
    {
      var name :| name in todo;
      var h, next := GroupFor(before, held, name, upstreams[name], buildable, lo, hi);
      if h.None? {
        return None, next;
      }
      OneMoreGroup(before, held, upstreams, lo, hi, groups, name, h.value, next);
      todo := todo - {name};
      groups := groups[name := h.value];
      hi := next;
    }
    return Some(groups), hi;
  }

  // ---- applying snapshots ----

  datatype Snapshot = Snapshot(generation: nat, version: string, router: Router, chains: map<nat, Chain>,
                               groups: map<string, Handle>)

  /**
    * What the surroundings answer during one apply: lock health, certificates and keys on disk, plugin and
    * group construction.
    */
  datatype Surroundings = Surroundings(lockPoisoned: bool, tlsUsable: bool, materialLoads: bool,
                                       build: ChainBuilder, buildable: UpstreamGroup -> bool)

  datatype Verdict = Applied | LockPoisoned | RestartRequired | Rejected

  datatype ApplyResult = ApplyResult(verdict: Verdict, activeVersion: string, activeGeneration: nat)

  datatype State = State(bootstrap: Fingerprint, current: Snapshot, nextObject: nat)

  /** A new snapshot built on top of the current one. */
  ghost predicate Builds(s: State, version: string, router: Router, t: State) {
    && t.current.generation == s.current.generation + 1 && t.current.version == version && t.current.router == router
    && t.current.groups.Keys == router.upstreams.Keys
    && GroupsBuilt(s.current.router.upstreams, s.current.groups, router.upstreams, s.nextObject, t.nextObject,
                   t.current.groups)
  }

  /** What building a snapshot on top of the current one may fail on. */
  predicate Fails(s: State, router: Router, around: Surroundings) {
    || !around.tlsUsable || !around.materialLoads || RouterFails(router, around.build)
    || GroupsFail(s.current.router.upstreams, s.current.groups, router.upstreams, around.buildable)
  }

  function VerdictOn(s: State, router: Router, around: Surroundings): Verdict {
    if around.lockPoisoned then LockPoisoned
    else if RestartFingerprint(router) != s.bootstrap then RestartRequired
    else if Fails(s, router, around) then Rejected
    else Applied
  }

  ghost predicate ApplyStep(s: State, version: string, router: Router, around: Surroundings, t: State, r: ApplyResult) {
    && t.bootstrap == s.bootstrap && s.nextObject <= t.nextObject && r.verdict == VerdictOn(s, router, around)
    && r.activeVersion == t.current.version && r.activeGeneration == t.current.generation
    && if r.verdict == Applied then Builds(s, version, router, t) else t.current == s.current
  }

  ghost predicate Sound(s: State) {
    && RestartFingerprint(s.current.router) == s.bootstrap
    && s.current.groups.Keys == s.current.router.upstreams.Keys
    && (forall n :: n in s.current.groups ==> s.current.groups[n].config == s.current.router.upstreams[n])
    && (forall n :: n in s.current.groups ==> s.current.groups[n].id < s.nextObject)
  }

  /** `RuntimeState`: the active snapshot, swapped under the apply lock. */
  class RuntimeState {
    const bootstrap: Fingerprint
    var current: Snapshot
    var nextObject: nat

    ghost function Value(): State
      reads this
    {
      State(bootstrap, current, nextObject)
    }

    /** The first snapshot is taken without the live certificate check; a failure there is fatal. */
    constructor (version: string, router: Router, chains: map<nat, Chain>, groups: map<string, Handle>, built: nat)
      requires groups.Keys == router.upstreams.Keys && GroupsBuilt(map[], map[], router.upstreams, 0, built, groups)
      ensures Sound(Value()) && current == Snapshot(1, version, router, chains, groups)
      ensures bootstrap == RestartFingerprint(router)
    {
      bootstrap := RestartFingerprint(router);
      current := Snapshot(1, version, router, chains, groups);
      nextObject := built;
    }

    method ApplySnapshot(version: string, router: Router, around: Surroundings, ghost table: map<nat, Content>)
      returns (r: ApplyResult)
      requires Sound(Value()) && RouterBuild.RouterIn(router, table)
      modifies this
      ensures ApplyStep(old(Value()), version, router, around, Value(), r) && Sound(Value())
      ensures r.verdict == Applied ==> OwnChains(current.chains, table, around.build)
      ensures r.verdict == Applied ==>
                forall k :: k in router.listeners ==> HostsCovered(router.listeners[k], current.chains)
    {
      if around.lockPoisoned {
        return ApplyResult(LockPoisoned, current.version, current.generation);
      }
      if RestartFingerprint(router) != bootstrap {
        return ApplyResult(RestartRequired, current.version, current.generation);
      }
      if !around.tlsUsable {
        return ApplyResult(Rejected, current.version, current.generation);
      }
      var chains := BuildPluginChains(router, around.build, table);
      if chains.Err? {
        return ApplyResult(Rejected, current.version, current.generation);
      }
      var groups, next := BuildGroups(current.router.upstreams, current.groups, router.upstreams, around.buildable,
                                      nextObject);
      nextObject := next;
      if groups.None? || !around.materialLoads {
        return ApplyResult(Rejected, current.version, current.generation);
      }
      BuiltIsSound(old(Value()), router, groups.value, next);
      current := Snapshot(current.generation + 1, version, router, chains.value, groups.value);
      return ApplyResult(Applied, current.version, current.generation);
    }
  }

  lemma BuiltIsSound(s: State, router: Router, groups: map<string, Handle>, next: nat)
    requires Sound(s) && groups.Keys == router.upstreams.Keys
    requires GroupsBuilt(s.current.router.upstreams, s.current.groups, router.upstreams, s.nextObject, next, groups)
    ensures forall n :: n in groups ==> groups[n].config == router.upstreams[n] && groups[n].id < next
  {
    forall n | n in groups ensures groups[n].config == router.upstreams[n] && groups[n].id < next {
      assert HandleOk(s.current.router.upstreams, s.current.groups, n, router.upstreams[n], s.nextObject, next,
                      groups[n]);
    }
  }

  // ---- whole runs ----

  datatype Attempt = Attempt(version: string, router: Router, around: Surroundings)

  ghost predicate StepAt(states: seq<State>, attempts: seq<Attempt>, results: seq<ApplyResult>, i: nat)
    requires i < |attempts| < |states| && i < |results|
  {
    var a := attempts[i];
    ApplyStep(states[i], a.version, a.router, a.around, states[i + 1], results[i])
  }

  ghost predicate Run(states: seq<State>, attempts: seq<Attempt>, results: seq<ApplyResult>) {
    && |states| == |attempts| + 1 && |results| == |attempts| && Sound(states[0]) && states[0].current.generation == 1
    && forall i :: 0 <= i < |attempts| ==> StepAt(states, attempts, results, i)
  }

  function AppliedCount(results: seq<ApplyResult>): nat {
    if results == [] then 0
    else AppliedCount(results[..|results| - 1]) + (if results[|results| - 1].verdict == Applied then 1 else 0)
  }

  lemma StepKeepsSound(s: State, version: string, router: Router, around: Surroundings, t: State, r: ApplyResult)
    requires Sound(s) && ApplyStep(s, version, router, around, t, r)
    ensures Sound(t)
  {
    if r.verdict == Applied {
      BuiltIsSound(s, router, t.current.groups, t.nextObject);
    }
  }

  /**
    * After any run the active fingerprint is the bootstrap one, the generation counts the applied
    * snapshots, and every running group was built from the configuration now held under its name.
    */
  lemma {:induction false} ActiveStateOverEveryRun(states: seq<State>, attempts: seq<Attempt>,
                                                   results: seq<ApplyResult>, n: nat)
    requires Run(states, attempts, results) && n < |states|
    ensures Sound(states[n]) && states[n].bootstrap == states[0].bootstrap
    ensures states[n].current.generation == 1 + AppliedCount(results[..n])
  {
    if n > 0 {
      ActiveStateOverEveryRun(states, attempts, results, n - 1);
      var a := attempts[n - 1];
      assert StepAt(states, attempts, results, n - 1);
      StepKeepsSound(states[n - 1], a.version, a.router, a.around, states[n], results[n - 1]);
      assert results[..n][..n - 1] == results[..n - 1];
    }
  }

  // ---- what a restart is needed for ----

  predicate SameListener(r: Router, t: Router, k: ListenKey) {
    && (if k in r.protocols then r.protocols[k].http2 else false)
       == (if k in t.protocols then t.protocols[k].http2 else false)
    && (if k in r.protocols then r.protocols[k].http2Only else false)
       == (if k in t.protocols then t.protocols[k].http2Only else false)
    && (k in r.tls <==> k in t.tls) && (k in r.tls && k in t.tls ==> r.tls[k].settings == t.tls[k].settings)
  }

  /** The sockets, what is spoken on them, and the settings read once at start. */
  ghost predicate SameTransport(r: Router, t: Router) {
    && r.listeners.Keys == t.listeners.Keys && (forall k :: k in r.listeners ==> SameListener(r, t, k))
    && r.geoip == t.geoip && r.options.allowConnect == t.options.allowConnect && r.options.h2c == t.options.h2c
    && r.options.keepaliveRequests == t.options.keepaliveRequests && r.options.http2 == t.options.http2
  }

  lemma ListenersCompared(r: Router, t: Router)
    requires RestartFingerprint(r).listeners == RestartFingerprint(t).listeners
    ensures r.listeners.Keys == t.listeners.Keys && forall k :: k in r.listeners ==> SameListener(r, t, k)
  {
    var a, b := RestartFingerprint(r).listeners, RestartFingerprint(t).listeners;
    assert a.Keys == r.listeners.Keys && b.Keys == t.listeners.Keys;
    forall k | k in r.listeners ensures SameListener(r, t, k) {
      assert a[k] == b[k];
    }
  }

  /** The fingerprint tells apart exactly what a restart is needed for. */
  lemma FingerprintTells(r: Router, t: Router)
    ensures RestartFingerprint(r) == RestartFingerprint(t) <==> SameTransport(r, t)
  {
    if RestartFingerprint(r) == RestartFingerprint(t) { ListenersCompared(r, t); }
    if SameTransport(r, t) {
      forall k | k in r.listeners
        ensures RestartFingerprint(r).listeners[k] == RestartFingerprint(t).listeners[k]
      {
        assert SameListener(r, t, k);
      }
      assert RestartFingerprint(r).listeners == RestartFingerprint(t).listeners;
    }
  }

  /** Through any run the sockets, their protocols and TLS settings, and the start-up settings stay what they were. */
  lemma TransportNeverChanges(states: seq<State>, attempts: seq<Attempt>, results: seq<ApplyResult>, n: nat)
    requires Run(states, attempts, results) && n < |states|
    ensures SameTransport(states[0].current.router, states[n].current.router)
  {
    ActiveStateOverEveryRun(states, attempts, results, n);
    FingerprintTells(states[0].current.router, states[n].current.router);
  }

  /** And a snapshot is refused for a restart exactly when it would change any of them. */
  lemma RestartExactly(states: seq<State>, attempts: seq<Attempt>, results: seq<ApplyResult>, i: nat)
    requires Run(states, attempts, results) && i < |attempts| && !attempts[i].around.lockPoisoned
    ensures results[i].verdict == RestartRequired <==> !SameTransport(states[0].current.router, attempts[i].router)
  {
    ActiveStateOverEveryRun(states, attempts, results, i);
    FingerprintTells(states[0].current.router, attempts[i].router);
    assert StepAt(states, attempts, results, i);
  }

  predicate ConfigIs(s: State, name: string, config: UpstreamGroup) {
    name in s.current.router.upstreams && s.current.router.upstreams[name] == config
  }

  /** A group whose configuration never changes stays the same object through any run. */
  lemma {:induction false} GroupSurvives(states: seq<State>, attempts: seq<Attempt>, results: seq<ApplyResult>, i: nat,
                                         j: nat, name: string, config: UpstreamGroup)
    requires Run(states, attempts, results) && i <= j < |states|
    requires forall k :: i <= k <= j ==> ConfigIs(states[k], name, config)
    ensures name in states[i].current.groups && name in states[j].current.groups
    ensures states[j].current.groups[name] == states[i].current.groups[name]
  {
    if i == j {
      ActiveStateOverEveryRun(states, attempts, results, i);
      assert ConfigIs(states[i], name, config);
    } else {
      GroupSurvives(states, attempts, results, i, j - 1, name, config);
      ActiveStateOverEveryRun(states, attempts, results, j - 1);
      assert ConfigIs(states[j - 1], name, config) && ConfigIs(states[j], name, config);
      assert StepAt(states, attempts, results, j - 1);
      KeptInStep(states[j - 1], attempts[j - 1], states[j], results[j - 1], name);
    }
  }

  lemma KeptInStep(s: State, a: Attempt, t: State, r: ApplyResult, name: string)
    requires Sound(s) && ApplyStep(s, a.version, a.router, a.around, t, r)
    requires name in s.current.router.upstreams && name in t.current.router.upstreams
    requires s.current.router.upstreams[name] == t.current.router.upstreams[name]
    ensures name in t.current.groups && name in s.current.groups && t.current.groups[name] == s.current.groups[name]
  {
    if r.verdict == Applied {
      assert HandleOk(s.current.router.upstreams, s.current.groups, name, t.current.router.upstreams[name],
                      s.nextObject, t.nextObject, t.current.groups[name]);
    }
  }

  /** A group whose configuration did change is a new object, unlike any that ran before. */
  lemma ChangedGroupIsFresh(s: State, a: Attempt, t: State, r: ApplyResult, name: string)
    requires Sound(s) && ApplyStep(s, a.version, a.router, a.around, t, r) && name in t.current.groups
    requires r.verdict == Applied
    requires (name in s.current.router.upstreams ==>
                s.current.router.upstreams[name] != t.current.router.upstreams[name])
    ensures forall n :: n in s.current.groups ==> s.current.groups[n].id != t.current.groups[name].id
  {
    assert HandleOk(s.current.router.upstreams, s.current.groups, name, t.current.router.upstreams[name],
                    s.nextObject, t.nextObject, t.current.groups[name]);
  }
}

/** Who the client is: the forwarded chain that trusted proxies vouch for, from hop to hop. */
module ClientIp {
  import opened Common
  import Lexer

  /** Printing and parsing addresses, as the standard library does it. */
  datatype Notation = Notation(show: IpAddr -> string, parse: string -> Option<IpAddr>)

  predicate Clean(w: string) { w != [] && forall i :: 0 <= i < |w| ==> w[i] != ',' && !Lexer.IsWhitespace(w[i]) }

  /** Addresses print without commas or blanks, and parse back. */
  ghost predicate Faithful(n: Notation) { forall ip :: Clean(n.show(ip)) && n.parse(n.show(ip)) == Some(ip) }

  // ---- lists of addresses in text ----

  function TrimStart(s: string): string { if s != [] && Lexer.IsWhitespace(s[0]) then TrimStart(s[1..]) else s }

  function TrimEnd(s: string): string {
    if s != [] && Lexer.IsWhitespace(s[|s| - 1]) then TrimEnd(s[..|s| - 1]) else s
  }

  function Trim(s: string): string { TrimEnd(TrimStart(s)) }

  /** Splits at commas, trims and parses; one bad element spoils the list. */
  function ParseList(n: Notation, s: string): (r: Option<seq<IpAddr>>)
    ensures r.Some? ==> r.value != []
    decreases |s|
  {
    var k := Lexer.LenTo(',', s);
    match n.parse(Trim(s[..k]))
    case None => None
    case Some(ip) =>
      if k == |s| then Some([ip])
      else match ParseList(n, s[k + 1..])
           case None => None
           case Some(more) => Some([ip] + more)
  }

  function JoinIps(n: Notation, ips: seq<IpAddr>): string
    requires ips != []
  {
    if |ips| == 1 then n.show(ips[0]) else n.show(ips[0]) + (", " + JoinIps(n, ips[1..]))
  }

  lemma SpaceIsWhite()
    ensures Lexer.IsWhitespace(' ')
  {
    assert Lexer.InRanges(0x20, Lexer.WHITE_SPACE[1..]);
  }

  lemma TrimPadded(pad: string, w: string)
    requires (pad == [] || pad == " ") && Clean(w)
    ensures Trim(pad + w) == w
  {
    SpaceIsWhite();
    assert pad + w == w || (pad + w)[1..] == w;
    assert TrimStart(w) == w && TrimStart(pad + w) == w && TrimEnd(w) == w;
  }

  lemma ParseFirst(n: Notation, pad: string, ip: IpAddr, rest: string)
    requires Clean(n.show(ip)) && n.parse(n.show(ip)) == Some(ip)
    requires (pad == [] || pad == " ") && (rest != [] ==> rest[0] == ',')
    ensures ParseList(n, (pad + n.show(ip)) + rest)
         == if rest == [] then Some([ip])
            else match ParseList(n, rest[1..]) case None => None case Some(more) => Some([ip] + more)
  {
    var w := pad + n.show(ip);
    SpaceIsWhite();
    Lexer.LenToIs(',', w + rest, |w|);
    TrimPadded(pad, n.show(ip));
    assert (w + rest)[..|w|] == w;
    if rest != [] { assert (w + rest)[|w| + 1..] == rest[1..]; }
  }

  /** A joined list is read back, with or without a leading blank. */
  lemma {:induction false} ParseJoined(n: Notation, ips: seq<IpAddr>, pad: string)
    requires Faithful(n) && ips != [] && (pad == [] || pad == " ")
    ensures ParseList(n, pad + JoinIps(n, ips)) == Some(ips)
  {
    var w := n.show(ips[0]);
    var rest := if |ips| == 1 then [] else ", " + JoinIps(n, ips[1..]);
    assert pad + JoinIps(n, ips) == (pad + w) + rest;
    ParseFirst(n, pad, ips[0], rest);
    assert ips == [ips[0]] + ips[1..];
    if |ips| > 1 {
      assert rest[1..] == " " + JoinIps(n, ips[1..]);
      ParseJoined(n, ips[1..], " ");
    } else {
      assert ips == [ips[0]];
    }
  }

  lemma ParseSent(n: Notation, ips: seq<IpAddr>)
    requires Faithful(n) && ips != []
    ensures ParseList(n, JoinIps(n, ips)) == Some(ips)
  {
    ParseJoined(n, ips, []);
    assert [] + JoinIps(n, ips) == JoinIps(n, ips);
  }

  // ---- the vouched chain ----

  /** Every address of `l[k..]` but the first is trusted. */
  predicate VouchedFrom(l: seq<IpAddr>, k: nat, trusted: IpAddr -> bool) {
    k < |l| && forall i :: k < i < |l| ==> trusted(l[i])
  }

  /** `l[k..]` is the longest such suffix. */
  predicate Longest(l: seq<IpAddr>, k: nat, trusted: IpAddr -> bool) {
    VouchedFrom(l, k, trusted) && forall j :: 0 <= j < k ==> !VouchedFrom(l, j, trusted)
  }

  /** Walk left from `n` while the address at hand is trusted. */
  function WalkLeft(l: seq<IpAddr>, n: nat, trusted: IpAddr -> bool): (k: nat)
    requires n < |l|
    ensures k <= n
  {
    if n == 0 || !trusted(l[n]) then n else WalkLeft(l, n - 1, trusted)
  }

  function ChainOf(l: seq<IpAddr>, trusted: IpAddr -> bool): (r: seq<IpAddr>)
    requires l != []
    ensures r != []
  {
    l[WalkLeft(l, |l| - 1, trusted)..]
  }

  lemma {:induction false} WalkFindsLongest(l: seq<IpAddr>, n: nat, trusted: IpAddr -> bool)
    requires VouchedFrom(l, n, trusted)
    ensures Longest(l, WalkLeft(l, n, trusted), trusted)
  {
    if n > 0 && trusted(l[n]) {
      WalkFindsLongest(l, n - 1, trusted);
    }
  }

  /** The addresses a request claims to have come through, oldest first, and the peer it did come from. */
  function Claimed(n: Notation, forwarded: Option<string>, peer: IpAddr): (l: seq<IpAddr>)
    ensures l != []
  {
    (if forwarded.Some? && ParseList(n, forwarded.value).Some? then ParseList(n, forwarded.value).value else [])
    + [peer]
  }

  function ResolvedChain(n: Notation, peer: Option<IpAddr>, forwarded: Option<string>,
                         trusted: IpAddr -> bool): Option<seq<IpAddr>> {
    if peer.None? then None else Some(ChainOf(Claimed(n, forwarded, peer.value), trusted))
  }

  method ResolveChain(n: Notation, peer: Option<IpAddr>, forwardedFor: Option<string>, trusted: IpAddr -> bool)
    returns (chain: Option<seq<IpAddr>>)
    ensures chain == ResolvedChain(n, peer, forwardedFor, trusted)
    ensures peer.Some? ==> exists k: nat :: Longest(Claimed(n, forwardedFor, peer.value), k, trusted)
                                            && chain == Some(Claimed(n, forwardedFor, peer.value)[k..])
  {
    if peer.None? {
      return None;
    }
    ghost var l := Claimed(n, forwardedFor, peer.value);
    WalkFindsLongest(l, |l| - 1, trusted);
    assert l[|l| - 1..] == [peer.value];
    if !trusted(peer.value) {
      return Some([peer.value]);
    }
    if forwardedFor.None? {
      return Some([peer.value]);
    }
    var parsed := ParseList(n, forwardedFor.value);
    if parsed.None? {
      return Some([peer.value]);
    }
    var walked := Walk(parsed.value, peer.value, trusted);
    chain := Some(walked);
  }

  /** The loop: pop forwarded addresses while the current one is trusted, then reverse what was collected. */
  method Walk(list: seq<IpAddr>, peer: IpAddr, trusted: IpAddr -> bool) returns (chain: seq<IpAddr>)
    ensures chain == ChainOf(list + [peer], trusted)
  {
    ghost var l := list + [peer];
    var forwarded, current, reversed := list, peer, [peer];
    assert l[|l| - 1..] == [peer] == Reversed(reversed);
    while trusted(current) && forwarded != []
      invariant |forwarded| < |l| && forwarded == l[..|forwarded|] && current == l[|forwarded|]
      invariant WalkLeft(l, |l| - 1, trusted) == WalkLeft(l, |forwarded|, trusted)
      invariant Reversed(reversed) == l[|forwarded|..]
      decreases |forwarded|
    {
      var last := |forwarded| - 1;
      current := forwarded[last];
      forwarded := forwarded[..last];
      ReversedPush(reversed, current);
      reversed := reversed + [current];
      assert l[last..] == [current] + l[last + 1..];
    }
    chain := Reversed(reversed);
  }

  function Reversed<T>(s: seq<T>): seq<T> { seq(|s|, i requires 0 <= i < |s| => s[|s| - 1 - i]) }

  lemma ReversedPush<T>(s: seq<T>, x: T)
    ensures Reversed(s + [x]) == [x] + Reversed(s)
  {
  }

  // ---- headers ----

  const X_REAL_IP := "x-real-ip"
  const X_FORWARDED_FOR := "x-forwarded-for"

  /** Header values by lower-case name; a value that is not visible ASCII has no text. */
  type Fields = map<string, seq<Option<string>>>

  /** The header the identity is taken from. */
  datatype Source = ForwardedFor(recursive: bool) | RealIp

  function SourceName(source: Source): string { if source.RealIp? then X_REAL_IP else X_FORWARDED_FOR }

  function Values(fields: Fields, name: string): seq<Option<string>> { if name in fields then fields[name] else [] }

  function ResolveHeaders(n: Notation, peer: Option<IpAddr>, fields: Fields, source: Source,
                          trusted: IpAddr -> bool): Option<seq<IpAddr>> {
    if peer.None? then None
    else
      var values := Values(fields, SourceName(source));
      if !trusted(peer.value) || |values| != 1 || values[0].None? then Some([peer.value])
      else
        var raw := values[0].value;
        match source
        case RealIp =>
          (match n.parse(Trim(raw)) case Some(ip) => Some([ip, peer.value]) case None => Some([peer.value]))
        case ForwardedFor(true) => ResolvedChain(n, peer, Some(raw), trusted)
        case ForwardedFor(false) =>
          match ParseList(n, raw)
          case None => Some([peer.value])
          case Some(l) => Some([l[|l| - 1], peer.value])
  }

  /** What a hop sends on for a resolved chain. */
  function Written(n: Notation, fields: Fields, chain: Option<seq<IpAddr>>): Fields
    requires chain.Some? ==> chain.value != []
  {
    match chain
    case None => fields - {X_REAL_IP, X_FORWARDED_FOR}
    case Some(l) => fields[X_REAL_IP := [Some(n.show(l[0]))]][X_FORWARDED_FOR := [Some(JoinIps(n, l))]]
  }

  /** The request headers, changed in place. */
  class HeaderMap {
    var fields: Fields

    constructor (fields: Fields)
      ensures this.fields == fields
    {
      this.fields := fields;
    }

    method Set(name: string, value: string)
      modifies this
      ensures fields == old(fields)[name := [Some(value)]]
    {
      fields := fields[name := [Some(value)]];
    }

    method Remove(name: string)
      modifies this
      ensures fields == old(fields) - {name}
    {
      fields := fields - {name};
    }

    /** `ClientIpForwarding::apply`. */
    method Apply(n: Notation, chain: Option<seq<IpAddr>>)
      requires chain.Some? ==> chain.value != []
      modifies this
      ensures fields == Written(n, old(fields), chain)
    {
      if chain.None? {
        Remove(X_REAL_IP);
        Remove(X_FORWARDED_FOR);
        return;
      }
      Set(X_REAL_IP, n.show(chain.value[0]));
      Set(X_FORWARDED_FOR, JoinIps(n, chain.value));
    }
  }

  // ---- hop after hop ----

  /** A chain a hop may hand on: all but the first address trusted. */
  predicate Handed(chain: seq<IpAddr>, trusted: IpAddr -> bool) {
    chain != [] && forall i :: 1 <= i < |chain| ==> trusted(chain[i])
  }

  /** A peer that is not trusted speaks for itself alone, whatever its headers and wherever they are read from. */
  lemma UntrustedSpeaksForItself(n: Notation, peer: IpAddr, fields: Fields, source: Source, trusted: IpAddr -> bool)
    requires !trusted(peer)
    ensures ResolveHeaders(n, Some(peer), fields, source, trusted) == Some([peer])
  {
  }

  /** What a recursive hop resolves can be handed on. */
  lemma RecursiveChainHanded(n: Notation, peer: IpAddr, fields: Fields, trusted: IpAddr -> bool)
    ensures var r := ResolveHeaders(n, Some(peer), fields, ForwardedFor(true), trusted);
            r.Some? && Handed(r.value, trusted)
  {
    var values := Values(fields, X_FORWARDED_FOR);
    if trusted(peer) && |values| == 1 && values[0].Some? {
      var l := Claimed(n, values[0], peer);
      WalkFindsLongest(l, |l| - 1, trusted);
    }
  }

  /** One trusted hop appends its peer to the chain it was sent, and nothing else. */
  lemma TrustedHopAppends(n: Notation, chain: seq<IpAddr>, peer: IpAddr, sent: Fields, trusted: IpAddr -> bool)
    requires Faithful(n) && Handed(chain, trusted) && trusted(peer)
    requires Values(sent, X_FORWARDED_FOR) == [Some(JoinIps(n, chain))]
    ensures ResolveHeaders(n, Some(peer), sent, ForwardedFor(true), trusted) == Some(chain + [peer])
    ensures Handed(chain + [peer], trusted)
  {
    var l := chain + [peer];
    ParseSent(n, chain);
    assert Claimed(n, Some(JoinIps(n, chain)), peer) == l;
    WalkFindsLongest(l, |l| - 1, trusted);
    assert VouchedFrom(l, 0, trusted);
  }

  /** A hop that reads X-Real-IP keeps the client, and forgets the hops between. */
  lemma RealIpHopKeepsClient(n: Notation, chain: seq<IpAddr>, peer: IpAddr, sent: Fields, trusted: IpAddr -> bool)
    requires Faithful(n) && chain != [] && trusted(peer) && Values(sent, X_REAL_IP) == [Some(n.show(chain[0]))]
    ensures ResolveHeaders(n, Some(peer), sent, RealIp, trusted) == Some([chain[0], peer])
  {
    TrimPadded([], n.show(chain[0]));
    assert [] + n.show(chain[0]) == n.show(chain[0]);
  }

  /** A hop that is not recursive takes the nearest address. */
  lemma PlainHopTakesNearest(n: Notation, chain: seq<IpAddr>, peer: IpAddr, sent: Fields, trusted: IpAddr -> bool)
    requires Faithful(n) && chain != [] && trusted(peer) && Values(sent, X_FORWARDED_FOR) == [Some(JoinIps(n, chain))]
    ensures ResolveHeaders(n, Some(peer), sent, ForwardedFor(false), trusted) == Some([chain[|chain| - 1], peer])
  {
    ParseSent(n, chain);
  }

  /** So behind one trusted proxy it loses the client, where a recursive hop would keep the whole chain. */
  lemma PlainHopLosesClient(n: Notation, client: IpAddr, proxy: IpAddr, peer: IpAddr, sent: Fields,
                            trusted: IpAddr -> bool)
    requires Faithful(n) && client != proxy && client != peer && trusted(proxy) && trusted(peer)
    requires Values(sent, X_FORWARDED_FOR) == [Some(JoinIps(n, [client, proxy]))]
    ensures var r := ResolveHeaders(n, Some(peer), sent, ForwardedFor(false), trusted); r.Some? && client !in r.value
    ensures ResolveHeaders(n, Some(peer), sent, ForwardedFor(true), trusted) == Some([client, proxy, peer])
  {
    PlainHopTakesNearest(n, [client, proxy], peer, sent, trusted);
    TrustedHopAppends(n, [client, proxy], peer, sent, trusted);
    assert [client, proxy] + [peer] == [client, proxy, peer];
  }

  /** The chain hop `i` resolves. */
  function ChainAt(n: Notation, peers: seq<IpAddr>, received: seq<Fields>, trusted: IpAddr -> bool,
                   i: nat): Option<seq<IpAddr>>
    requires i < |peers| == |received|
  {
    ResolveHeaders(n, Some(peers[i]), received[i], ForwardedFor(true), trusted)
  }

  /** What hop `i` gets: the forwarding header as hop `i - 1` wrote it, anything else as it pleases. */
  ghost predicate HandedOn(n: Notation, peers: seq<IpAddr>, received: seq<Fields>, trusted: IpAddr -> bool, i: nat)
    requires 1 <= i < |peers| == |received|
  {
    var before := ChainAt(n, peers, received, trusted, i - 1);
    && before.Some? && before.value != []
    && Values(received[i], X_FORWARDED_FOR) == Values(Written(n, received[i - 1], before), X_FORWARDED_FOR)
  }

  ghost predicate Journey(n: Notation, peers: seq<IpAddr>, received: seq<Fields>, trusted: IpAddr -> bool) {
    |peers| == |received| && forall i :: 1 <= i < |peers| ==> HandedOn(n, peers, received, trusted, i)
  }

  lemma NextHop(n: Notation, peers: seq<IpAddr>, received: seq<Fields>, trusted: IpAddr -> bool, i: nat)
    requires Faithful(n) && Journey(n, peers, received, trusted) && 1 <= i < |peers| && trusted(peers[i])
    ensures var before := ChainAt(n, peers, received, trusted, i - 1);
            before.Some? && ChainAt(n, peers, received, trusted, i) == Some(before.value + [peers[i]])
  {
    assert HandedOn(n, peers, received, trusted, i);
    RecursiveChainHanded(n, peers[i - 1], received[i - 1], trusted);
    TrustedHopAppends(n, ChainAt(n, peers, received, trusted, i - 1).value, peers[i], received[i], trusted);
  }

  predicate Appends(chains: seq<Option<seq<IpAddr>>>, peers: seq<IpAddr>, i: nat)
    requires 1 <= i < |chains| == |peers|
  {
    chains[i - 1].Some? && chains[i] == Some(chains[i - 1].value + [peers[i]])
  }

  lemma {:induction false} GrowsByPeers(chains: seq<Option<seq<IpAddr>>>, peers: seq<IpAddr>, i: nat)
    requires i < |chains| == |peers| && chains[0].Some? && chains[0].value != []
    requires forall j :: 1 <= j < |chains| ==> Appends(chains, peers, j)
    ensures chains[i].Some? && chains[i].value == chains[0].value + peers[1..i + 1]
    ensures chains[i].value[0] == chains[0].value[0]
  {
    if i == 0 {
      assert chains[0].value + peers[1..1] == chains[0].value;
    } else {
      GrowsByPeers(chains, peers, i - 1);
      assert Appends(chains, peers, i);
      assert chains[0].value + peers[1..i] + [peers[i]] == chains[0].value + peers[1..i + 1];
    }
  }

  /** The chains all hops resolve. */
  function Chains(n: Notation, peers: seq<IpAddr>, received: seq<Fields>,
                  trusted: IpAddr -> bool): seq<Option<seq<IpAddr>>>
    requires |peers| == |received|
  {
    seq(|peers|, i requires 0 <= i < |peers| => ChainAt(n, peers, received, trusted, i))
  }

  lemma EachHopAppends(n: Notation, peers: seq<IpAddr>, received: seq<Fields>, trusted: IpAddr -> bool)
    requires Faithful(n) && Journey(n, peers, received, trusted) && forall j :: 1 <= j < |peers| ==> trusted(peers[j])
    ensures forall j :: 1 <= j < |peers| ==> Appends(Chains(n, peers, received, trusted), peers, j)
  {
    forall j | 1 <= j < |peers| ensures Appends(Chains(n, peers, received, trusted), peers, j) {
      NextHop(n, peers, received, trusted, j);
    }
  }

  /**
    * Through any number of trusted hops the chain only grows by the peers passed, so every hop sees
    * the client the first hop saw.
    */
  lemma ClientStableOverHops(n: Notation, peers: seq<IpAddr>, received: seq<Fields>, trusted: IpAddr -> bool, i: nat)
    requires Faithful(n) && Journey(n, peers, received, trusted) && i < |peers|
    requires forall j :: 1 <= j < |peers| ==> trusted(peers[j])
    ensures var first := ChainAt(n, peers, received, trusted, 0);
            var here := ChainAt(n, peers, received, trusted, i);
            && first.Some? && here.Some? && Handed(first.value, trusted)
            && here.value == first.value + peers[1..i + 1] && here.value[0] == first.value[0]
  {
    RecursiveChainHanded(n, peers[0], received[0], trusted);
    EachHopAppends(n, peers, received, trusted);
    var chains := Chains(n, peers, received, trusted);
    assert chains[0] == ChainAt(n, peers, received, trusted, 0);
    assert chains[i] == ChainAt(n, peers, received, trusted, i);
    GrowsByPeers(chains, peers, i);
  }
}

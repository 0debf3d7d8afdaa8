/** The promises asked of the libraries can be kept together: a notation that keeps all of them. */
module WireSyntax {
  import opened Common
  import opened Config
  import opened WireRoute
  import Lexer

  function Unary(n: nat): (s: string)
    ensures |s| == n && forall i :: 0 <= i < n ==> s[i] == '1'
  {
    seq(n, _ => '1')
  }

  function ShowIp(a: IpAddr): string { (if a.V4? then "4" else "6") + Unary(a.bits) }

  function ShowNetwork(n: Network): string { Unary(n.prefix) + ShowIp(n.address) }

  function ShowJson(j: Json): string { if j.Null? then "n" else "d" + Unary(j.id) }

  function UrlTo(tls: bool, host: string, port: nat, bare: bool): Option<Url> {
    if Lexer.Blank(host) || port > 65535 then None
    else Some(Url(host, if port == DefaultPort(tls) then None else Some(port), bare))
  }

  /** Every text is a bare host, except two that are not. */
  function UrlOf(tls: bool, host: string, port: nat): Option<Url> {
    if host == "user@pool" then UrlTo(tls, "pool", port, false)
    else if host == "pool:0/x" then UrlTo(tls, "pool", 0, false)
    else UrlTo(tls, host, port, true)
  }

  /** What the text was printed from, if anything. */
  ghost function Unprinted<T(!new)>(show: T -> string, s: string): Option<T> {
    if t :| show(t) == s then Some(t) else None
  }

  lemma ShowIpDiffers(a: IpAddr, b: IpAddr)
    requires ShowIp(a) == ShowIp(b)
    ensures a == b
  {
    assert ShowIp(a)[0] == ShowIp(b)[0] && |ShowIp(a)| == a.bits + 1 && |ShowIp(b)| == b.bits + 1;
  }

  lemma PrefixShown(n: Network)
    ensures |ShowNetwork(n)| > n.prefix && ShowNetwork(n)[n.prefix] != '1'
    ensures ShowNetwork(n)[n.prefix..] == ShowIp(n.address)
    ensures forall i :: 0 <= i < n.prefix ==> ShowNetwork(n)[i] == '1'
  {
    assert ShowNetwork(n)[n.prefix] == ShowIp(n.address)[0];
  }

  lemma ShowNetworkDiffers(n: Network, m: Network)
    requires ShowNetwork(n) == ShowNetwork(m)
    ensures n == m
  {
    PrefixShown(n);
    PrefixShown(m);
    assert n.prefix == m.prefix;
    ShowIpDiffers(n.address, m.address);
  }

  lemma ShowNetworkIsNotAll(n: Network)
    ensures ShowNetwork(n) != "all"
  {
    assert ShowNetwork(n)[0] == if n.prefix > 0 then '1' else ShowIp(n.address)[0];
  }

  lemma ShowJsonDiffers(i: Json, j: Json)
    requires ShowJson(i) == ShowJson(j)
    ensures i == j
  {
    assert ShowJson(i)[0] == ShowJson(j)[0] && (i.Document? ==> |ShowJson(i)| == i.id + 1)
           && (j.Document? ==> |ShowJson(j)| == j.id + 1);
  }

  lemma ShowJsonIsNotBlank(j: Json)
    ensures !Lexer.Blank(ShowJson(j))
  {
    Lexer.NotInRanges('n' as int, Lexer.WHITE_SPACE);
    Lexer.NotInRanges('d' as int, Lexer.WHITE_SPACE);
    assert !Lexer.IsWhitespace(ShowJson(j)[0]);
  }

  lemma PoolIsAHost()
    ensures !Lexer.Blank("pool")
  {
    Lexer.NotInRanges('p' as int, Lexer.WHITE_SPACE);
    assert "pool"[0] == 'p';
  }

  ghost function Sample(): Syntax {
    Syntax(ShowIp, s => Unprinted(ShowIp, s), ShowNetwork, s => Unprinted(ShowNetwork, s), ShowJson,
           s => Unprinted(ShowJson, s),
           s => Some(s), _ => true, _ => true, _ => true, (_, _) => true, UrlOf, _ => true, _ => true, _ => true,
           (_, _) => true)
  }

  lemma IpReads(a: IpAddr)
    ensures Unprinted(ShowIp, ShowIp(a)) == Some(a)
  {
    ShowIpDiffers(a, Unprinted(ShowIp, ShowIp(a)).value);
  }

  lemma NetworkReads(n: Network)
    ensures Unprinted(ShowNetwork, ShowNetwork(n)) == Some(n)
  {
    ShowNetworkDiffers(n, Unprinted(ShowNetwork, ShowNetwork(n)).value);
  }

  lemma JsonReads(j: Json)
    ensures Unprinted(ShowJson, ShowJson(j)) == Some(j)
  {
    ShowJsonDiffers(j, Unprinted(ShowJson, ShowJson(j)).value);
  }

  lemma UrlReads(tls: bool, h: string, p: nat)
    requires UrlOf(tls, h, p).Some?
    ensures var u := UrlOf(tls, h, p).value;
            && !Lexer.Blank(u.host) && EffectivePort(u, tls) <= 65535
            && UrlOf(tls, u.host, EffectivePort(u, tls))
               == Some(Url(u.host, if EffectivePort(u, tls) == DefaultPort(tls) then None
                           else Some(EffectivePort(u, tls)), true))
  {
  }

  /** All promises, and the two hosts that are not read back. */
  lemma FaithfulIsPossible() returns (x: Syntax)
    ensures Faithful(x)
    ensures x.url(false, "user@pool", 80) == Some(Url("pool", None, false))
    ensures x.url(false, "pool:0/x", 80) == Some(Url("pool", Some(0), false))
  {
    PoolIsAHost();
    x := Sample();
    forall a ensures x.parseIp(x.showIp(a)) == Some(a) { IpReads(a); }
    forall n ensures x.parseNetwork(x.showNetwork(n)) == Some(n) && x.showNetwork(n) != "all" {
      NetworkReads(n);
      ShowNetworkIsNotAll(n);
    }
    forall j ensures x.parseJson(x.showJson(j)) == Some(j) && !Lexer.Blank(x.showJson(j)) {
      JsonReads(j);
      ShowJsonIsNotBlank(j);
    }
    forall tls, h, p | x.url(tls, h, p).Some?
      ensures var u := x.url(tls, h, p).value;
              && !Lexer.Blank(u.host) && EffectivePort(u, tls) <= 65535
              && x.url(tls, u.host, EffectivePort(u, tls))
                 == Some(Url(u.host, if EffectivePort(u, tls) == DefaultPort(tls) then None
                             else Some(EffectivePort(u, tls)), true))
    {
      UrlReads(tls, h, p);
    }
  }
}

/** The orders the exporter sorts by, and the sort. */
module Ordering {
  import opened Common
  import opened Config
  import opened WireParts

  /** Lexicographic order of strings; on UTF-8 the order of bytes and that of characters are the same. */
  predicate Upto(a: string, b: string) {
    a == [] || (b != [] && (a[0] < b[0] || (a[0] == b[0] && Upto(a[1..], b[1..]))))
  }

  lemma {:induction false} UptoTotal(a: string, b: string)
    ensures Upto(a, b) || Upto(b, a)
  {
    if a != [] && b != [] && a[0] == b[0] { UptoTotal(a[1..], b[1..]); }
  }

  lemma {:induction false} UptoTransitive(a: string, b: string, c: string)
    requires Upto(a, b) && Upto(b, c)
    ensures Upto(a, c)
  {
    if a != [] && a[0] == b[0] == c[0] { UptoTransitive(a[1..], b[1..], c[1..]); }
  }

  lemma {:induction false} UptoBoth(a: string, b: string)
    requires Upto(a, b) && Upto(b, a)
    ensures a == b
  {
    if a != [] && b != [] {
      UptoBoth(a[1..], b[1..]);
      assert a == [a[0]] + a[1..] && b == [b[0]] + b[1..];
    }
  }

  /** The derived order of listen keys: address, port, TLS; IPv4 before IPv6. */
  predicate KeyUpto(a: ListenKey, b: ListenKey) {
    if a.addr.V4? != b.addr.V4? then a.addr.V4?
    else if a.addr.bits != b.addr.bits then a.addr.bits < b.addr.bits
    else if a.port != b.port then a.port < b.port
    else !a.ssl || b.ssl
  }

  /** Any two elements are in order one way, and the order carries over. */
  ghost predicate Orders<K(!new)>(le: (K, K) -> bool) {
    (forall a, b :: le(a, b) || le(b, a)) && forall a, b, c :: le(a, b) && le(b, c) ==> le(a, c)
  }

  predicate Ascending<K>(s: seq<K>, le: (K, K) -> bool) { forall i, j :: 0 <= i < j < |s| ==> le(s[i], s[j]) }

  /** Strings by themselves, or elements by the string that ranks them. */
  function ByRank<K>(rank: K -> string): (K, K) -> bool { (a, b) => Upto(rank(a), rank(b)) }

  lemma RankOrders<K(!new)>(rank: K -> string)
    ensures Orders(ByRank(rank))
  {
    forall a: K, b: K ensures ByRank(rank)(a, b) || ByRank(rank)(b, a) {
      UptoTotal(rank(a), rank(b));
    }
    forall a: K, b: K, c: K | ByRank(rank)(a, b) && ByRank(rank)(b, c) ensures ByRank(rank)(a, c) {
      UptoTransitive(rank(a), rank(b), rank(c));
    }
  }

  lemma UptoOrders()
    ensures Orders(Upto)
  {
    forall a, b ensures Upto(a, b) || Upto(b, a) { UptoTotal(a, b); }
    forall a, b, c | Upto(a, b) && Upto(b, c) ensures Upto(a, c) { UptoTransitive(a, b, c); }
  }

  lemma KeysOrder()
    ensures Orders(KeyUpto)
  {
  }

  /** What comes after all of some names comes after any choice of them. */
  lemma AppendAscends(us: seq<string>, names: seq<string>, last: string)
    requires Ascending(us, Upto) && Ascending(names + [last], Upto) && forall n :: n in us ==> n in names
    ensures Ascending(us + [last], Upto)
  {
    forall n | n in us ensures Upto(n, last) {
      var i :| 0 <= i < |names| && names[i] == n;
      assert (names + [last])[i] == n && (names + [last])[|names|] == last;
    }
  }

  /** Where a new element belongs. */
  method Place<K(!new)>(s: seq<K>, k: K, le: (K, K) -> bool) returns (p: nat)
    requires Ascending(s, le) && Orders(le)
    ensures p <= |s| && (forall i :: 0 <= i < p ==> le(s[i], k)) && forall i :: p <= i < |s| ==> le(k, s[i])
  {
    p := 0;
    while p < |s| && !le(k, s[p])
      invariant 0 <= p <= |s| && forall i :: 0 <= i < p ==> le(s[i], k)
    {
      p := p + 1;
    }
  }

  function InsertedAt<K>(s: seq<K>, p: nat, k: K): seq<K>
    requires p <= |s|
  {
    s[..p] + [k] + s[p..]
  }

  lemma InsertedHas<K>(s: seq<K>, p: nat, k: K, i: nat)
    requires p <= |s| && i <= |s|
    ensures |InsertedAt(s, p, k)| == |s| + 1
    ensures InsertedAt(s, p, k)[i] == if i < p then s[i] else if i == p then k else s[i - 1]
  {
  }

  lemma InsertedAscends<K>(s: seq<K>, p: nat, k: K, le: (K, K) -> bool)
    requires p <= |s| && Ascending(s, le)
    requires (forall i :: 0 <= i < p ==> le(s[i], k)) && forall i :: p <= i < |s| ==> le(k, s[i])
    ensures Ascending(InsertedAt(s, p, k), le)
  {
    forall i, j | 0 <= i < j <= |s| ensures le(InsertedAt(s, p, k)[i], InsertedAt(s, p, k)[j]) {
      InsertedHas(s, p, k, i);
      InsertedHas(s, p, k, j);
    }
  }

  lemma InsertedOnce<K>(s: seq<K>, p: nat, k: K)
    requires p <= |s| && NoRepeats(s) && k !in s
    ensures NoRepeats(InsertedAt(s, p, k))
  {
    forall i, j | 0 <= i < j <= |s| ensures InsertedAt(s, p, k)[i] != InsertedAt(s, p, k)[j] {
      InsertedHas(s, p, k, i);
      InsertedHas(s, p, k, j);
    }
  }

  lemma InsertedMembers<K>(s: seq<K>, p: nat, k: K)
    requires p <= |s|
    ensures forall x :: x in InsertedAt(s, p, k) <==> x in s || x == k
  {
    assert s == s[..p] + s[p..];
  }

  /** All elements, each once, in order. */
  method SortBy<K(!new, ==)>(keys: set<K>, le: (K, K) -> bool) returns (order: seq<K>)
    requires Orders(le)
    ensures Lists(order, keys) && Ascending(order, le)
  {
    order := [];
    var todo := keys;
    while todo != {}
      invariant todo <= keys && Ascending(order, le) && NoRepeats(order)
      invariant forall k :: k in order <==> k in keys && k !in todo
      decreases |todo|
    {
      var k :| k in todo;
      var p := Place(order, k, le);
      InsertedAscends(order, p, k, le);
      InsertedOnce(order, p, k);
      InsertedMembers(order, p, k);
      order := InsertedAt(order, p, k);
      todo := todo - {k};
    }
  }

  predicate IsLeast(n: string, keys: set<string>) { n in keys && forall m :: m in keys ==> Upto(n, m) }

  lemma {:induction false} LeastExists(keys: set<string>) returns (n: string)
    requires keys != {}
    ensures IsLeast(n, keys)
    decreases |keys|
  {
    n :| n in keys;
    if keys != {n} {
      var m := LeastExists(keys - {n});
      UptoTotal(n, m);
      UptoTotal(n, n);
      UptoTotal(m, m);
      forall k | k in keys ensures Upto(if Upto(n, m) then n else m, k) {
        if k != n && Upto(n, m) { UptoTransitive(n, m, k); }
      }
      n := if Upto(n, m) then n else m;
    } else {
      UptoTotal(n, n);
    }
  }

  lemma LeastUnique(n: string, m: string, keys: set<string>)
    requires IsLeast(n, keys) && IsLeast(m, keys)
    ensures n == m
  {
    UptoBoth(n, m);
  }

  lemma FirstIsLeast(order: seq<string>, keys: set<string>)
    requires Lists(order, keys) && Ascending(order, Upto) && order != []
    ensures IsLeast(order[0], keys)
  {
    forall m | m in keys ensures Upto(order[0], m) {
      var i :| 0 <= i < |order| && order[i] == m;
      UptoTotal(m, m);
    }
  }
}

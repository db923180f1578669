/**
 * The dashboard's proxy lists: one list per proxy type, the "ACTIVE
 * PROXIES ... out of ... total" counts, and appending a new proxy to
 * the list of one type.
 */
module Proxies {

  /** The keys of the proxy table, in the order the table lists them. */
  datatype ProxyType = Tor | Http | Socks

  predicate IsLowerLetter(c: char) { 'a' <= c <= 'z' }

  /** The key as the page spells it, used in log lines: a lower-case word. */
  function TypeName(t: ProxyType): (s: string)
    ensures |s| > 0
    ensures forall i :: 0 <= i < |s| ==> IsLowerLetter(s[i])
  {
    match t
    case Tor => "tor"
    case Http => "http"
    case Socks => "socks"
  }

  /** Distinct types are spelled differently, so a log line names its type unambiguously. */
  lemma TypeNameInjective(t: ProxyType, u: ProxyType)
    requires TypeName(t) == TypeName(u)
    ensures t == u
  {
    assert TypeName(t)[0] == TypeName(u)[0];
  }

  datatype Proxy = Proxy(name: string, url: string, status: string)

  predicate IsActive(p: Proxy) { p.status == "active" }

  type Table = map<ProxyType, seq<Proxy>>

  /** Every proxy type has its list. */
  predicate Complete(m: Table) { forall t: ProxyType :: t in m }

  lemma ThreeKeysComplete(m: Table)
    requires Tor in m && Http in m && Socks in m
    ensures Complete(m)
  {
    forall t: ProxyType ensures t in m {
      match t
      case Tor =>
      case Http =>
      case Socks =>
    }
  }

  /** The mock table the page starts from. */
  function Initial(): (m: Table)
    ensures Complete(m)
  {
    var m := map[
      Tor := [Proxy("Local Tor", "socks5h://127.0.0.1:9050", "active")],
      Http := [
        Proxy("HTTP Proxy 1", "http://example-proxy.com:8080", "inactive"),
        Proxy("HTTP Proxy 2", "http://example-proxy2.com:8080", "active")
      ],
      Socks := [
        Proxy("SOCKS Proxy 1", "socks5://example-socks.com:1080", "inactive"),
        Proxy("SOCKS Proxy 2", "socks5://example-socks2.com:1080", "active")
      ]
    ];
    ThreeKeysComplete(m);
    m
  }

  /** All lists flattened, in key order: every listed proxy, and nothing else. */
  function All(m: Table): (r: seq<Proxy>)
    requires Complete(m)
  {
    m[Tor] + m[Http] + m[Socks]
  }

  /** The active proxies of a list, in list order. */
  function Actives(s: seq<Proxy>): (r: seq<Proxy>)
    ensures |r| <= |s|
    ensures forall p :: p in r <==> p in s && IsActive(p)
  {
    if s == [] then []
    else if IsActive(s[0]) then [s[0]] + Actives(s[1..])
    else Actives(s[1..])
  }

  /** The filter keeps each active entry as often as the list holds it, and no inactive entry. */
  lemma {:induction false} ActivesIsFilter(s: seq<Proxy>)
    ensures forall p :: multiset(Actives(s))[p] == if IsActive(p) then multiset(s)[p] else 0
  {
    if s != [] {
      assert s == [s[0]] + s[1..];
      ActivesIsFilter(s[1..]);
    }
  }

  /** The positions of a list that hold an active proxy. */
  function ActivePositions(s: seq<Proxy>): set<nat>
  {
    set i: nat | i < |s| && IsActive(s[i])
  }

  /** Filtering keeps one entry per active position. */
  lemma ActivePositionsSnoc(front: seq<Proxy>, last: Proxy)
    ensures ActivePositions(front + [last]) ==
      ActivePositions(front) + if IsActive(last) then {|front|} else {}
    ensures |front| !in ActivePositions(front)
  {
    var s := front + [last];
    forall i: nat | i < |front|
      ensures s[i] == front[i]
    {
    }
  }

  lemma {:induction false} ActivesCountsPositions(s: seq<Proxy>)
    ensures |Actives(s)| == |ActivePositions(s)|
  {
    if s == [] {
      assert ActivePositions(s) == {};
    } else {
      var front, last := s[..|s| - 1], s[|s| - 1];
      assert s == front + [last];
      ActivesConcat(front, [last]);
      ActivesCountsPositions(front);
      ActivePositionsSnoc(front, last);
      assert Actives([last]) == if IsActive(last) then [last] else [];
    }
  }

  /** The number on the "ACTIVE PROXIES" card: how many listed entries have status "active". */
  function ActiveCount(m: Table): (n: nat)
    requires Complete(m)
    ensures n == |ActivePositions(All(m))|
    ensures n <= TotalCount(m)
  {
    ActivesCountsPositions(All(m));
    |Actives(All(m))|
  }

  /** The "out of ... total proxies" number. */
  function TotalCount(m: Table): nat
    requires Complete(m)
  {
    |All(m)|
  }

  /** The table with `p` added at the end of the `t` list; no other list changes. */
  function Appended(m: Table, t: ProxyType, p: Proxy): (r: Table)
    requires Complete(m)
    ensures Complete(r) && r.Keys == m.Keys
    ensures r[t] == m[t] + [p]
    ensures forall u :: u in m && u != t ==> r[u] == m[u]
  {
    m[t := m[t] + [p]]
  }

  lemma {:induction false} ActivesConcat(a: seq<Proxy>, b: seq<Proxy>)
    ensures Actives(a + b) == Actives(a) + Actives(b)
  {
    if a == [] {
      assert a + b == b;
    } else {
      assert (a + b)[1..] == a[1..] + b;
      ActivesConcat(a[1..], b);
    }
  }

  /**
   * Adding a proxy raises the total by one, and raises the active count
   * by one exactly when the new proxy is active.
   */
  lemma AppendedCounts(m: Table, t: ProxyType, p: Proxy)
    requires Complete(m)
    ensures TotalCount(Appended(m, t, p)) == TotalCount(m) + 1
    ensures ActiveCount(Appended(m, t, p)) == ActiveCount(m) + if IsActive(p) then 1 else 0
  {
    var r := Appended(m, t, p);
    assert Actives([p]) == if IsActive(p) then [p] else [];
    ActivesConcat(m[Tor], m[Http]);
    ActivesConcat(m[Tor] + m[Http], m[Socks]);
    ActivesConcat(r[Tor], r[Http]);
    ActivesConcat(r[Tor] + r[Http], r[Socks]);
    ActivesConcat(m[t], [p]);
  }

  /** The mock table shows 3 active proxies out of 5. */
  lemma InitialCounts()
    ensures ActiveCount(Initial()) == 3 && TotalCount(Initial()) == 5
  {
    var m := Initial();
    ActivesConcat(m[Tor], m[Http]);
    ActivesConcat(m[Tor] + m[Http], m[Socks]);
  }
}

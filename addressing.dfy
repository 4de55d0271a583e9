/** How NewWeb turns the configured host and port into the server's listen
    address and the service's Home URL (service.go:73-92). */
module Addressing {
  import opened Wrappers
  import opened Text
  import opened Decimals

  /** The host assumed when only a port is configured. */
  const Loopback := "127.0.0.1"

  /** The host the configuration holds once NewWeb has run: the loopback address
      replaces an empty host when a port is given, and nothing else changes. */
  function EffectiveHost(host: string, port: int): (h: string)
    ensures h != "" <==> host != "" || port > 0
    ensures h != host ==> host == "" && port > 0 && h == Loopback
  {
    if host == "" && port > 0 then Loopback else host
  }

  /** The listen address; `None` stands for Go's empty `addr`, for which no Home URL is set. */
  function ListenAddress(host: string, port: int): (r: Option<string>)
    ensures r.None? <==> host == "" && port <= 0
    ensures r.Some? ==> r.value != ""
    ensures port > 0 ==> r == Some(EffectiveHost(host, port) + ":" + Decimal(port))
    ensures host != "" && port <= 0 ==> r == Some(host)
  {
    if host == "" then
      if port > 0 then Some(Loopback + ":" + Decimal(port)) else None
    else if port <= 0 then Some(host)
    else Some(host + ":" + Decimal(port))
  }

  /** The address as the Go code holds it: a string, empty when there is none. */
  function AddrString(addr: Option<string>): (s: string)
    ensures (s == "") <==> addr.None? || addr.value == ""
  {
    addr.GetOr("")
  }

  /** The Home URL: set only for a non-empty address, and then "http://" followed by it. */
  function HomeUrl(addr: string): (home: Option<string>)
    ensures home.Some? <==> addr != ""
  {
    if addr != "" then Some("http://" + addr) else None
  }

  /** The text after "http://" in a URL string, an independent reading of a Home URL. */
  function AfterHttpScheme(url: string): (rest: Option<string>) {
    if |url| >= 7 && url[..7] == "http://" then Some(url[7..]) else None
  }

  /** Splits an address at its last colon into the text before it and a decimal port. */
  function HostAndPort(addr: string): (split: Option<(string, nat)>) {
    match LastIndex(addr, ':')
    case None => None
    case Some(i) =>
      var digits := addr[i + 1..];
      if digits != [] && AllDigits(digits) then Some((addr[..i], Value(digits))) else None
  }

  /** A Home URL exists exactly when a listen address does, and "http://" is followed by exactly that address. */
  lemma HomeNamesListenAddress(host: string, port: int)
    ensures HomeUrl(AddrString(ListenAddress(host, port))).Some? <==> ListenAddress(host, port).Some?
    ensures ListenAddress(host, port).Some? ==>
      AfterHttpScheme(HomeUrl(AddrString(ListenAddress(host, port))).value) == ListenAddress(host, port)
  {
    var a := ListenAddress(host, port);
    if a.Some? {
      var url := "http://" + a.value;
      assert url[..7] == "http://" && url[7..] == a.value;
    }
  }

  /** With a positive port the address is "host:port" for the effective host:
      splitting it at its last colon gives back that host and the port. */
  lemma {:induction false} HostAndPortOfListenAddress(host: string, port: int)
    requires port > 0
    ensures ListenAddress(host, port).Some?
    ensures HostAndPort(ListenAddress(host, port).value) == Some((EffectiveHost(host, port), port))
  {
    var h := EffectiveHost(host, port);
    var d := Decimal(port);
    var a := h + ":" + d;
    assert a == h + [':'] + d;
    LastIndexAtJoint(h, ':', d);
    assert a[|h| + 1..] == d;
    assert a[..|h|] == h;
    ValueOfDecimal(port);
  }

  /** Distinct positive ports give distinct addresses for the same host. */
  lemma ListenAddressInjectiveInPort(host: string, p: int, q: int)
    requires p > 0 && q > 0
    requires ListenAddress(host, p) == ListenAddress(host, q)
    ensures p == q
  {
    HostAndPortOfListenAddress(host, p);
    HostAndPortOfListenAddress(host, q);
  }

  /** Only a port configured: the loopback address on that port. */
  lemma ScenarioPortOnly()
    ensures ListenAddress("", 8080) == Some("127.0.0.1:8080")
    ensures EffectiveHost("", 8080) == "127.0.0.1"
  {
    assert Decimal(8) == "8";
    assert Decimal(80) == "80";
    assert Decimal(808) == "808";
    assert Decimal(8080) == "8080";
    assert Loopback + ":" + "8080" == "127.0.0.1:8080";
  }

  /** A host that already carries a port, with no port configured, is used verbatim. */
  lemma ScenarioHostOnly()
    ensures ListenAddress("example.com:9090", 0) == Some("example.com:9090")
    ensures HomeUrl(AddrString(ListenAddress("example.com:9090", 0))) == Some("http://example.com:9090")
  {
    assert "http://" + "example.com:9090" == "http://example.com:9090";
  }
}

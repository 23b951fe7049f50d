/** The address resolver of the model registry repository: from the networking
    facts of one service and the operating mode, the base URL of that model
    registry's REST API. Also a reader for such URLs, which shows that the
    resolver's output determines the scheme, host and port it was built from. */
module Address {
  import opened Results
  import opened Text
  import opened Decimal

  /** The fixed API path every resolved address ends with. */
  const ApiPath := "/api/model_registry/v1alpha3"

  /** The scheme and the host (with port, when there is one) of a base URL. */
  datatype Endpoint = Endpoint(isHTTPS: bool, host: string)

  /** The scheme named by the TLS flag. */
  function Protocol(isHTTPS: bool): string {
    if isHTTPS then "https" else "http"
  }

  /** Federated mode with an external address present: the only case in which
      the external address is used. */
  predicate UsesExternalAddress(externalAddressRest: string, isFederatedMode: bool) {
    isFederatedMode && externalAddressRest != ""
  }

  /** `host:port` exactly as Go's `"%s:%d"` renders it: the cluster IP verbatim
      (an IPv6 address gets no brackets) and the port in signed decimal. */
  function ClusterHost(clusterIP: string, httpPort: Int32): string {
    clusterIP + ":" + FormatInt(httpPort)
  }

  /** The URL `<scheme>://<host>/api/model_registry/v1alpha3`. */
  function FormatEndpoint(e: Endpoint): string {
    Protocol(e.isHTTPS) + "://" + e.host + ApiPath
  }

  /** Reads a URL of the form `(http|https)://<host>/api/model_registry/v1alpha3`
      with a non-empty host; None for every other string. */
  function ParseServerAddress(url: string): Option<Endpoint> {
    if StartsWith(url, "https://") then ParseAfterScheme(true, url[8..])
    else if StartsWith(url, "http://") then ParseAfterScheme(false, url[7..])
    else None
  }

  function ParseAfterScheme(isHTTPS: bool, rest: string): Option<Endpoint> {
    if |rest| > |ApiPath| && EndsWith(rest, ApiPath)
    then Some(Endpoint(isHTTPS, rest[..|rest| - |ApiPath|]))
    else None
  }

  /** The URL shape every resolved address must have. */
  predicate WellFormedAddress(url: string) {
    ParseServerAddress(url).Some?
  }

  /** Splits a host at its last colon into the part before it and the
      integer written after it. */
  function SplitHostPort(host: string): Option<(string, int)> {
    match LastIndexOf(host, ':')
    case None => None
    case Some(k) =>
      match ParseInt(host[k + 1..])
      case None => None
      case Some(port) => Some((host[..k], port))
  }

  /** The text after the scheme is read back into the host it was built from. */
  lemma ParseAfterSchemeJoin(isHTTPS: bool, host: string)
    requires host != ""
    ensures ParseAfterScheme(isHTTPS, host + ApiPath) == Some(Endpoint(isHTTPS, host))
  {
    var rest := host + ApiPath;
    assert rest[|rest| - |ApiPath|..] == ApiPath;
    assert rest[..|rest| - |ApiPath|] == host;
  }

  /** The URL of an endpoint is its scheme prefix followed by the host and the API path. */
  lemma FormatEndpointParts(e: Endpoint)
    ensures FormatEndpoint(e)
         == (if e.isHTTPS then "https://" else "http://") + (e.host + ApiPath)
  {
    assert Protocol(true) + "://" == "https://";
    assert Protocol(false) + "://" == "http://";
  }

  lemma HttpsPrefixRead(rest: string)
    ensures StartsWith("https://" + rest, "https://")
    ensures ("https://" + rest)[8..] == rest
  {
    assert ("https://" + rest)[..8] == "https://";
  }

  lemma HttpPrefixRead(rest: string)
    ensures !StartsWith("http://" + rest, "https://")
    ensures StartsWith("http://" + rest, "http://")
    ensures ("http://" + rest)[7..] == rest
  {
    assert ("http://" + rest)[..7] == "http://";
    assert ("http://" + rest)[4] == ':';
  }

  /** Every endpoint with a non-empty host is read back from its URL. */
  lemma ParseFormatEndpoint(e: Endpoint)
    requires e.host != ""
    ensures ParseServerAddress(FormatEndpoint(e)) == Some(e)
  {
    var rest := e.host + ApiPath;
    FormatEndpointParts(e);
    ParseAfterSchemeJoin(e.isHTTPS, e.host);
    if e.isHTTPS {
      HttpsPrefixRead(rest);
    } else {
      HttpPrefixRead(rest);
    }
  }

  /** Conversely, a URL that is read as an endpoint is that endpoint's URL,
      and its host is not empty. */
  lemma FormatParseEndpoint(url: string)
    requires ParseServerAddress(url).Some?
    ensures FormatEndpoint(ParseServerAddress(url).value) == url
    ensures ParseServerAddress(url).value.host != ""
  {
    var e := ParseServerAddress(url).value;
    var n := if StartsWith(url, "https://") then 8 else 7;
    var prefix := if e.isHTTPS then "https://" else "http://";
    var rest := url[n..];
    assert rest == e.host + ApiPath by {
      assert rest == rest[..|rest| - |ApiPath|] + rest[|rest| - |ApiPath|..];
    }
    assert url[..n] == prefix;
    assert url == url[..n] + rest;
    FormatEndpointParts(e);
  }

  /** The host part of a cluster address splits back into the cluster IP and
      the port, whatever colons the IP itself contains. */
  lemma SplitClusterHost(clusterIP: string, httpPort: Int32)
    ensures SplitHostPort(ClusterHost(clusterIP, httpPort)) == Some((clusterIP, httpPort))
  {
    var host := ClusterHost(clusterIP, httpPort);
    LastIndexOfJoin(clusterIP, ':', FormatInt(httpPort));
    assert host == clusterIP + [':'] + FormatInt(httpPort);
    assert host[|clusterIP| + 1..] == FormatInt(httpPort);
    assert host[..|clusterIP|] == clusterIP;
    FormatIntRoundTrip(httpPort);
  }

  /** The base URL of a model registry's REST API. The scheme always follows
      the TLS flag; the external address is the host only in federated mode
      and only when it is non-empty; otherwise the host is `clusterIP:port`.
      No input is rejected. */
  function ResolveServerAddress(clusterIP: string, httpPort: Int32, isHTTPS: bool,
                                externalAddressRest: string, isFederatedMode: bool): (url: string)
    ensures StartsWith(url, "https://") <==> isHTTPS
    ensures !isHTTPS ==> StartsWith(url, "http://")
    ensures EndsWith(url, ApiPath)
    ensures ParseServerAddress(url) ==
      Some(Endpoint(isHTTPS, if UsesExternalAddress(externalAddressRest, isFederatedMode)
                             then externalAddressRest
                             else ClusterHost(clusterIP, httpPort)))
  {
    var host := if UsesExternalAddress(externalAddressRest, isFederatedMode)
                then externalAddressRest
                else ClusterHost(clusterIP, httpPort);
    var e := Endpoint(isHTTPS, host);
    ParseFormatEndpoint(e);
    var url := FormatEndpoint(e);
    assert url[|url| - |ApiPath|..] == ApiPath;
    url
  }

  /** Federated mode with an external address: the URL is exactly
      `<scheme>://<external address>/api/model_registry/v1alpha3`, so the
      cluster IP and port play no part. */
  lemma FederatedAddressUsesExternalHost(clusterIP: string, httpPort: Int32, isHTTPS: bool,
                                         externalAddressRest: string)
    requires externalAddressRest != ""
    ensures ResolveServerAddress(clusterIP, httpPort, isHTTPS, externalAddressRest, true)
         == Protocol(isHTTPS) + "://" + externalAddressRest + ApiPath
  {
    var url := ResolveServerAddress(clusterIP, httpPort, isHTTPS, externalAddressRest, true);
    FormatParseEndpoint(url);
  }

  /** Outside federated mode, or without an external address, the URL is
      exactly `<scheme>://<cluster IP>:<port>/api/model_registry/v1alpha3`,
      so the external address plays no part. */
  lemma DefaultAddressUsesClusterHost(clusterIP: string, httpPort: Int32, isHTTPS: bool,
                                      externalAddressRest: string, isFederatedMode: bool)
    requires !isFederatedMode || externalAddressRest == ""
    ensures ResolveServerAddress(clusterIP, httpPort, isHTTPS, externalAddressRest, isFederatedMode)
         == Protocol(isHTTPS) + "://" + clusterIP + ":" + FormatInt(httpPort) + ApiPath
  {
    var url := ResolveServerAddress(clusterIP, httpPort, isHTTPS, externalAddressRest, isFederatedMode);
    FormatParseEndpoint(url);
    var scheme := Protocol(isHTTPS) + "://";
    assert url == scheme + ClusterHost(clusterIP, httpPort) + ApiPath;
    ConcatRegroup(scheme, clusterIP, ":", FormatInt(httpPort));
  }

  lemma ConcatRegroup(a: string, b: string, c: string, d: string)
    ensures a + (b + c + d) == a + b + c + d
  {
  }

  /** Every resolved address has the shape `(http|https)://<host>/api/model_registry/v1alpha3`
      with a non-empty host, degenerate inputs (empty IP, port 0) included. */
  lemma ResolvedAddressWellFormed(clusterIP: string, httpPort: Int32, isHTTPS: bool,
                                  externalAddressRest: string, isFederatedMode: bool)
    ensures WellFormedAddress(ResolveServerAddress(clusterIP, httpPort, isHTTPS,
                                                   externalAddressRest, isFederatedMode))
    ensures ParseServerAddress(ResolveServerAddress(clusterIP, httpPort, isHTTPS,
                                                    externalAddressRest, isFederatedMode)).value.host != ""
  {
    var url := ResolveServerAddress(clusterIP, httpPort, isHTTPS, externalAddressRest, isFederatedMode);
    FormatParseEndpoint(url);
  }

  /** A cluster address determines the service it was resolved for: the
      cluster IP, the port and the TLS flag can all be read back from it. */
  lemma ClusterAddressRecoversInputs(clusterIP: string, httpPort: Int32, isHTTPS: bool,
                                     externalAddressRest: string, isFederatedMode: bool)
    requires !UsesExternalAddress(externalAddressRest, isFederatedMode)
    ensures var e := ParseServerAddress(ResolveServerAddress(clusterIP, httpPort, isHTTPS,
                                                             externalAddressRest, isFederatedMode));
            e.Some? && e.value.isHTTPS == isHTTPS &&
            SplitHostPort(e.value.host) == Some((clusterIP, httpPort as int))
  {
    SplitClusterHost(clusterIP, httpPort);
  }

  /** Two services resolved to the same cluster address agree on cluster IP,
      port and TLS flag. */
  lemma ClusterAddressInjective(ip1: string, port1: Int32, https1: bool, ext1: string, fed1: bool,
                                ip2: string, port2: Int32, https2: bool, ext2: string, fed2: bool)
    requires !UsesExternalAddress(ext1, fed1) && !UsesExternalAddress(ext2, fed2)
    requires ResolveServerAddress(ip1, port1, https1, ext1, fed1)
          == ResolveServerAddress(ip2, port2, https2, ext2, fed2)
    ensures ip1 == ip2 && port1 == port2 && https1 == https2
  {
    ClusterAddressRecoversInputs(ip1, port1, https1, ext1, fed1);
    ClusterAddressRecoversInputs(ip2, port2, https2, ext2, fed2);
  }

  /** Plain service, no TLS, default mode. */
  lemma ExamplePlainClusterAddress()
    ensures ResolveServerAddress("10.0.0.5", 8080, false, "", false)
         == "http://10.0.0.5:8080" + ApiPath
  {
    DefaultAddressUsesClusterHost("10.0.0.5", 8080, false, "", false);
    Port8080Digits();
    PlainHostText();
  }

  /** Federated mode with an external address: the external host replaces `clusterIP:port`. */
  lemma ExampleFederatedExternalAddress()
    ensures ResolveServerAddress("10.0.0.5", 8080, true, "registry.example.com", true)
         == "https://registry.example.com" + ApiPath
  {
    FederatedAddressUsesExternalHost("10.0.0.5", 8080, true, "registry.example.com");
    assert Protocol(true) + "://" + "registry.example.com" == "https://registry.example.com";
  }

  /** The same service outside federated mode: the external address is ignored. */
  lemma ExampleExternalAddressIgnoredByDefault()
    ensures ResolveServerAddress("10.0.0.5", 8080, true, "registry.example.com", false)
         == "https://10.0.0.5:8080" + ApiPath
  {
    DefaultAddressUsesClusterHost("10.0.0.5", 8080, true, "registry.example.com", false);
    Port8080Digits();
    TlsHostText();
  }

  /** Literal concatenations behind the cluster-address examples, kept out of
      the examples themselves so that their proofs stay small. */
  lemma PlainHostText()
    ensures Protocol(false) + "://" + "10.0.0.5" + ":" + "8080" == "http://10.0.0.5:8080"
  {
  }

  lemma TlsHostText()
    ensures Protocol(true) + "://" + "10.0.0.5" + ":" + "8080" == "https://10.0.0.5:8080"
  {
  }

  lemma Port8080Digits()
    ensures FormatInt(8080) == "8080"
  {
    assert NatToDigits(8) == "8";
    assert NatToDigits(80) == "80";
    assert NatToDigits(808) == "808";
  }
}

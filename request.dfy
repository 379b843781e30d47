/**
 * Running one HTTP request: method and URL normalisation, header
 * flattening, the response record and the per-address IP lookup. The HTTP
 * client, the clock, the configuration store, DNS and the IP-metadata
 * fetcher are parameters.
 */
module Request {
  import opened Wrappers
  import opened Strings
  import HttpUtility
  import IpCache
  import IpUtility

  /** http.Header: each key has a list of values. */
  type Header = map<string, seq<string>>

  type IpInfo = IpCache.IpRecord

  /** One second in the nanoseconds of time.Duration. */
  const Second: int := 1_000_000_000

  datatype RequestOptions = RequestOptions(timeout: int, headers: Header, body: string, url: string, httpMethod: string)

  datatype Cookie = Cookie(name: string, value: string)

  datatype RequestResponse = RequestResponse(
    httpVersion: string,
    statusMessage: string,
    statusCode: int,
    executionTime: real,
    headers: Header,
    body: string,
    cookies: seq<Cookie>,
    request: RequestOptions,
    path: string,
    host: string,
    httpMethod: string,
    ipInfos: seq<IpInfo>,
    slowResponse: bool,
    result: string)

  /** What is handed to the HTTP client: method, URL, one value per header, body and timeout. */
  datatype Outgoing = Outgoing(httpMethod: string, url: string, headers: map<string, string>, body: string, timeout: int)

  /** The client's answer: a transport error, or the reply and the URL parts it was sent to. */
  datatype HttpResult =
    | TransportError(message: string)
    | Replied(proto: string, status: string, statusCode: int, headers: Header, cookies: seq<Cookie>,
              text: string, path: string, host: string)

  /** How RunRequest ends: Exit(code) after an error message, or with a response. */
  datatype RunOutcome = Exited(code: int, message: string) | Completed(response: RequestResponse)

  /** HandleHttpMethod: the same canonicalisation as ParseHttpMethod. */
  function HandleHttpMethod(m: string): (r: string)
    ensures r == HttpUtility.ParseHttpMethod(m)
    ensures r == "" || r in HttpUtility.Methods
    ensures r != "" ==> ToLower(r) == ToLower(m)
  {
    match ToLower(m)
    case "get" => "GET"
    case "post" => "POST"
    case "put" => "PUT"
    case "delete" => "DELETE"
    case "patch" => "PATCH"
    case "head" => "HEAD"
    case _ => ""
  }

  /** HandleUrl: the URL when its scheme is http or https, else "". */
  function HandleUrl(url: string): (r: string)
    ensures r == HttpUtility.ParseUrl(url)
    ensures r == url <==> url == "" || HttpUtility.HasHttpScheme(url)
  {
    if !HasPrefix(url, "http://") && !HasPrefix(url, "https://") then "" else url
  }

  /** The first value of every header that has one. */
  function FirstValues(h: Header): (r: map<string, string>)
    ensures forall k :: k in r <==> k in h && |h[k]| > 0
    ensures forall k :: k in r ==> r[k] == h[k][0]
  {
    map k | k in h && |h[k]| > 0 :: h[k][0]
  }

  /** The header loop of RunRequest: keeps the first value per key and drops keys with no value. */
  method FlattenHeaders(h: Header) returns (r: map<string, string>)
    ensures r == FirstValues(h)
  {
    r := map[];
    var rest := h.Keys;
    while rest != {}
      invariant rest <= h.Keys
      invariant forall k :: k in r <==> k in h && k !in rest && |h[k]| > 0
      invariant forall k :: k in r ==> r[k] == h[k][0]
      decreases rest
    {
      var k :| k in rest;
      if |h[k]| > 0 {
        r := r[k := h[k][0]];
      }
      rest := rest - {k};
    }
  }

  /** The records kept from fetching each address in order: failed fetches are skipped. */
  function KeptInfos(addrs: seq<IpUtility.IpAddress>, fetch: (string, string) -> Result<IpInfo, string>): (r: seq<IpInfo>)
    ensures |r| <= |addrs|
  {
    if addrs == [] then []
    else
      var rest := KeptInfos(addrs[1..], fetch);
      match fetch(IpUtility.IpType(addrs[0]), addrs[0].text)
      case Ok(info) => [info] + rest
      case Err(_) => rest
  }

  /** Every kept record is the successful fetch of one of the addresses, typed by that address. */
  lemma {:induction false} KeptInfosFromFetches(addrs: seq<IpUtility.IpAddress>, fetch: (string, string) -> Result<IpInfo, string>)
    ensures forall x :: x in KeptInfos(addrs, fetch) ==>
      exists k :: 0 <= k < |addrs| && fetch(IpUtility.IpType(addrs[k]), addrs[k].text) == Ok(x)
  {
    if addrs != [] {
      KeptInfosFromFetches(addrs[1..], fetch);
      forall x | x in KeptInfos(addrs, fetch)
        ensures exists k :: 0 <= k < |addrs| && fetch(IpUtility.IpType(addrs[k]), addrs[k].text) == Ok(x)
      {
        if fetch(IpUtility.IpType(addrs[0]), addrs[0].text) != Ok(x) {
          var k :| 0 <= k < |addrs[1..]| && fetch(IpUtility.IpType(addrs[1..][k]), addrs[1..][k].text) == Ok(x);
          assert addrs[1..][k] == addrs[k + 1];
        }
      }
    }
  }

  /** When no fetch fails, there is one record per address, in resolver order. */
  lemma {:induction false} KeptInfosAllSucceed(addrs: seq<IpUtility.IpAddress>, fetch: (string, string) -> Result<IpInfo, string>)
    requires forall k :: 0 <= k < |addrs| ==> fetch(IpUtility.IpType(addrs[k]), addrs[k].text).Ok?
    ensures |KeptInfos(addrs, fetch)| == |addrs|
    ensures forall k :: 0 <= k < |addrs| ==>
      KeptInfos(addrs, fetch)[k] == fetch(IpUtility.IpType(addrs[k]), addrs[k].text).value
  {
    if addrs != [] {
      assert fetch(IpUtility.IpType(addrs[0]), addrs[0].text).Ok?;
      forall k | 0 <= k < |addrs[1..]| ensures fetch(IpUtility.IpType(addrs[1..][k]), addrs[1..][k].text).Ok? {
        assert addrs[1..][k] == addrs[k + 1];
      }
      KeptInfosAllSucceed(addrs[1..], fetch);
      forall k | 0 <= k < |addrs|
        ensures KeptInfos(addrs, fetch)[k] == fetch(IpUtility.IpType(addrs[k]), addrs[k].text).value
      {
        if k > 0 { assert addrs[1..][k - 1] == addrs[k]; }
      }
    }
  }

  /**
   * handleDomainIpsLookup over any fetchIpInfoFunc (the package variable
   * that tests replace): the host is cut at its first ':'; a resolver
   * failure gives no records; otherwise each address is typed and fetched,
   * failures are skipped and the order is the resolver's.
   */
  method DomainIpsLookup(host: string, dns: string -> IpUtility.DnsResult,
                         fetch: (string, string) -> Result<IpInfo, string>) returns (ipList: seq<IpInfo>)
    ensures dns(IpUtility.LookupHost(host)).DnsFailed? ==> ipList == []
    ensures dns(IpUtility.LookupHost(host)).Resolved? ==>
      ipList == KeptInfos(dns(IpUtility.LookupHost(host)).addresses, fetch)
  {
    var h := host;
    if ':' in h {
      h := Split(h, ':')[0];
    }
    assert h == IpUtility.LookupHost(host);
    var res := dns(h);
    if res.DnsFailed? {
      return [];
    }
    var ips := res.addresses;
    ipList := [];
    var j := 0;
    while j < |ips|
      invariant 0 <= j <= |ips|
      invariant ipList + KeptInfos(ips[j..], fetch) == KeptInfos(ips, fetch)
    {
      assert ips[j..][0] == ips[j] && ips[j..][1..] == ips[j + 1..];
      var ipType := IpUtility.IpType(ips[j]);
      var r := fetch(ipType, ips[j].text);
      if r.Ok? {
        ipList := ipList + [r.value];
      }
      j := j + 1;
    }
    assert ips[|ips|..] == [];
  }

  /**
   * RunRequest. An invalid URL ends in Exit(1) before anything is sent; an
   * unrecognised method is NOT rejected: its "" is sent and echoed. A
   * transport error ends in Exit(1). Otherwise the response carries the
   * reply, the slow flag (execution time strictly above the configured
   * threshold) and the request as it was sent. `executionTime` is the
   * measured duration in milliseconds and `threshold` the configured
   * SlowResponseThreshold.
   *
   * The records of the reply's host come from handleDomainIpsLookup with
   * the default fetchIpInfoFunc, this package's fetchIpInfo: the same code
   * as IpUtility.FetchIpInfo (a cache hit, or an API call whose record is
   * stored in the cache), which never fails. So the lookup is
   * IpUtility.LookupDomainIps: one record per resolved address, and the
   * cache keeps what was fetched.
   */
  method RunRequest(options: RequestOptions, http: Outgoing -> HttpResult, executionTime: real, threshold: int,
                    dns: string -> IpUtility.DnsResult, cache: IpCache.Cache, svc: IpUtility.Services)
    returns (out: RunOutcome)
    modifies cache
    ensures HandleUrl(options.url) == "" ==> out.Exited? && out.code == 1 && unchanged(cache)
    ensures var sent := Outgoing(HandleHttpMethod(options.httpMethod), options.url, FirstValues(options.headers),
                                 options.body, options.timeout);
      HandleUrl(options.url) != "" ==>
        match http(sent)
        case TransportError(_) => out.Exited? && out.code == 1 && unchanged(cache)
        case Replied(proto, status, code, headers, cookies, text, path, host) =>
          && out.Completed?
          && out.response.statusCode == code && out.response.statusMessage == status
          && out.response.httpVersion == proto && out.response.headers == headers
          && out.response.cookies == cookies && out.response.result == text
          && out.response.path == path && out.response.host == host
          && out.response.httpMethod == sent.httpMethod
          && out.response.body == options.body
          && out.response.executionTime == executionTime
          && (out.response.slowResponse <==> executionTime > threshold as real)
          && out.response.request == RequestOptions(options.timeout, options.headers, options.body,
                                                    options.url, HandleHttpMethod(options.httpMethod))
          && (dns(IpUtility.LookupHost(host)).DnsFailed? ==>
                out.response.ipInfos == [] && cache.entries == old(cache.entries) && cache.file == old(cache.file))
          && (dns(IpUtility.LookupHost(host)).Resolved? ==>
                && |out.response.ipInfos| == |dns(IpUtility.LookupHost(host)).addresses|
                && (out.response.ipInfos, IpUtility.CacheState(cache.entries, cache.file))
                     == IpUtility.FetchAll(IpUtility.CacheState(old(cache.entries), old(cache.file)),
                                           dns(IpUtility.LookupHost(host)).addresses, svc))
  {
    var verb := HandleHttpMethod(options.httpMethod);
    var url := HandleUrl(options.url);
    if url == "" {
      return Exited(1, "Invalid URL. Please provide a valid URL (http:// or https://).");
    }
    var headers := FlattenHeaders(options.headers);
    var res := http(Outgoing(verb, url, headers, options.body, options.timeout));
    if res.TransportError? {
      return Exited(1, "Failed to execute HTTP request: " + res.message);
    }
    var ipInfos := IpUtility.LookupDomainIps(cache, res.host, dns, svc);
    out := Completed(RequestResponse(
      res.proto, res.status, res.statusCode, executionTime, res.headers, options.body, res.cookies,
      RequestOptions(options.timeout, options.headers, options.body, url, verb),
      res.path, res.host, verb, ipInfos, executionTime > threshold as real, res.text));
  }
}

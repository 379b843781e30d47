/**
 * IP metadata resolution: a record per resolved address of the response's
 * host, read from the cache or fetched from the geolocation API and then
 * cached. DNS, the API and float scanning are oracle parameters.
 */
module IpUtility {
  import opened Wrappers
  import opened Strings
  import opened IpCache

  /** The fields of the geolocation API's JSON answer (all "" when the call or its decoding fails). */
  datatype ApiResponse = ApiResponse(
    hostname: string,
    postal: string,
    org: string,
    city: string,
    region: string,
    country: string,
    loc: string,
    asn: string,
    isp: string)

  /** A resolved address: its text form and whether it has a 4-byte form (net.IP.To4() != nil). */
  datatype IpAddress = IpAddress(text: string, hasV4Form: bool)

  /** What the resolver answers. */
  datatype DnsResult = DnsFailed | Resolved(addresses: seq<IpAddress>)

  /** The cache's in-memory store and its file, as one value. */
  datatype CacheState = CacheState(entries: map<string, IpRecord>, file: Option<map<string, IpRecord>>)

  /** The oracles the lookup consults: the API by URL, float scanning (Sscanf "%f"), and whether file writes succeed. */
  datatype Services = Services(api: string -> ApiResponse, scanFloat: string -> Option<real>, writeOk: bool)

  function ApiUrl(ip: string): string {
    "https://ipinfo.io/" + ip + "/json"
  }

  /** "IPv4" for an address with a 4-byte form, "IPv6" otherwise. */
  function IpType(a: IpAddress): (t: string)
    ensures t == "IPv4" || t == "IPv6"
    ensures t == "IPv4" <==> a.hasV4Form
  {
    if a.hasV4Form then "IPv4" else "IPv6"
  }

  /** The host the resolver is asked about: everything before the first ':'. */
  function LookupHost(host: string): (h: string)
    ensures h == BeforeFirst(host, ':')
    ensures ':' !in h && HasPrefix(host, h)
  {
    if ':' in host then Split(host, ':')[0] else host
  }

  /**
   * Latitude and longitude from a "lat,long" location: both stay 0 unless the
   * location is non-empty and splits into exactly two comma-separated parts;
   * a part Sscanf cannot read stays 0.
   */
  function Coordinates(loc: string, scanFloat: string -> Option<real>): (c: (real, real))
    ensures (loc == "" || |Split(loc, ',')| != 2) ==> c == (0.0, 0.0)
    ensures loc != "" && |Split(loc, ',')| == 2 ==>
      c == (scanFloat(Split(loc, ',')[0]).GetOr(0.0), scanFloat(Split(loc, ',')[1]).GetOr(0.0))
  {
    if loc != "" then
      var parts := Split(loc, ',');
      if |parts| == 2 then (scanFloat(parts[0]).GetOr(0.0), scanFloat(parts[1]).GetOr(0.0)) else (0.0, 0.0)
    else (0.0, 0.0)
  }

  /** The record built from an API answer. */
  function FromApi(ipType: string, ip: string, resp: ApiResponse, scanFloat: string -> Option<real>): IpRecord {
    var (lat, long) := Coordinates(resp.loc, scanFloat);
    IpRecord(ipType, ip, resp.postal, resp.hostname, resp.org, resp.org, resp.region, resp.city, resp.country, lat, long)
  }

  /** The field mapping of a miss: Type and Ip are the arguments, the rest comes from the answer. */
  lemma FromApiFields(ipType: string, ip: string, resp: ApiResponse, scanFloat: string -> Option<real>)
    ensures var r := FromApi(ipType, ip, resp, scanFloat);
      && r.ipType == ipType && r.ip == ip
      && r.decimal == resp.postal && r.asn == resp.org && r.isp == resp.org && r.state == resp.region
      && r.hostname == resp.hostname && r.city == resp.city && r.country == resp.country
      && (resp.loc == "" ==> r.latitude == 0.0 && r.longitude == 0.0)
  {
  }

  /** FetchIpInfo as a function of the cache state: the record returned and the new state. */
  function Fetch(st: CacheState, ipType: string, ip: string, svc: Services): (r: (IpRecord, CacheState))
    ensures Lookup(r.1.entries, ip) == Some(r.0)
    ensures Lookup(st.entries, ip).Some? ==> r == (Lookup(st.entries, ip).value, st)
    ensures Lookup(st.entries, ip).None? ==>
      && r.0 == FromApi(ipType, ip, svc.api(ApiUrl(ip)), svc.scanFloat)
      && r.1.entries == Store(st.entries, ip, r.0)
  {
    match Lookup(st.entries, ip)
    case Some(info) => (info, st)
    case None =>
      var info := FromApi(ipType, ip, svc.api(ApiUrl(ip)), svc.scanFloat);
      var entries := Store(st.entries, ip, info);
      (info, CacheState(entries, if svc.writeOk then Some(entries) else st.file))
  }

  /** Right after a fetch, fetching the same ip again is a cache hit that changes nothing. */
  lemma FetchTwiceHits(st: CacheState, ipType: string, ip: string, other: string, svc: Services)
    ensures var (info, st1) := Fetch(st, ipType, ip, svc);
      Fetch(st1, other, ip, svc) == (info, st1)
  {
  }

  /**
   * FetchIpInfo: the cached record on a hit, with no API call; on a miss the
   * API answer mapped to a record, which is stored under the ip's key. The
   * error is always nil, since transport and decoding errors are dropped.
   */
  method FetchIpInfo(cache: Cache, ipType: string, ip: string, svc: Services) returns (info: IpRecord, err: Option<string>)
    modifies cache
    ensures err == None
    ensures (info, CacheState(cache.entries, cache.file)) == Fetch(CacheState(old(cache.entries), old(cache.file)), ipType, ip, svc)
  {
    var key := CacheKey(ip);
    CacheKeyIdempotent(ip);
    var cached := cache.Get(key);
    if cached.Some? {
      return cached.value, None;
    }
    var resp := svc.api(ApiUrl(ip));
    info := FromApi(ipType, ip, resp, svc.scanFloat);
    cache.Set(key, info, svc.writeOk);
    err := None;
  }

  /** The records of a sequence of addresses fetched in order, and the final cache state. */
  function FetchAll(st: CacheState, addrs: seq<IpAddress>, svc: Services): (r: (seq<IpRecord>, CacheState))
    ensures |r.0| == |addrs|
    decreases |addrs|
  {
    if addrs == [] then ([], st)
    else
      var first := Fetch(st, IpType(addrs[0]), addrs[0].text, svc);
      var rest := FetchAll(first.1, addrs[1..], svc);
      ([first.0] + rest.0, rest.1)
  }

  /** Each cached entry for one of these addresses was made for that very address. */
  predicate Faithful(entries: map<string, IpRecord>, addrs: seq<IpAddress>) {
    forall k :: 0 <= k < |addrs| && CacheKey(addrs[k].text) in entries ==>
      entries[CacheKey(addrs[k].text)].ipType == IpType(addrs[k])
      && entries[CacheKey(addrs[k].text)].ip == addrs[k].text
  }

  /** Distinct addresses have distinct cache keys (true of IP text, which never holds '_'). */
  predicate KeysDistinct(addrs: seq<IpAddress>) {
    forall j, k :: 0 <= j < |addrs| && 0 <= k < |addrs| && CacheKey(addrs[j].text) == CacheKey(addrs[k].text) ==>
      addrs[j] == addrs[k]
  }

  /**
   * With a cache whose entries for these addresses are their own, the k-th
   * record is typed and addressed as the k-th resolved address.
   */
  lemma {:induction false} FetchAllTypes(st: CacheState, addrs: seq<IpAddress>, svc: Services)
    requires KeysDistinct(addrs) && Faithful(st.entries, addrs)
    ensures forall k :: 0 <= k < |addrs| ==>
      FetchAll(st, addrs, svc).0[k].ipType == IpType(addrs[k]) && FetchAll(st, addrs, svc).0[k].ip == addrs[k].text
    decreases |addrs|
  {
    if addrs != [] {
      var a := addrs[0];
      var (info, st1) := Fetch(st, IpType(a), a.text, svc);
      assert info.ipType == IpType(a) && info.ip == a.text by {
        if Lookup(st.entries, a.text).None? { FromApiFields(IpType(a), a.text, svc.api(ApiUrl(a.text)), svc.scanFloat); }
      }
      var tail := addrs[1..];
      assert KeysDistinct(tail) by {
        forall j, k | 0 <= j < |tail| && 0 <= k < |tail| && CacheKey(tail[j].text) == CacheKey(tail[k].text)
          ensures tail[j] == tail[k]
        {
          assert tail[j] == addrs[j + 1] && tail[k] == addrs[k + 1];
        }
      }
      assert Faithful(st1.entries, tail) by {
        forall k | 0 <= k < |tail| && CacheKey(tail[k].text) in st1.entries
          ensures st1.entries[CacheKey(tail[k].text)].ipType == IpType(tail[k])
          ensures st1.entries[CacheKey(tail[k].text)].ip == tail[k].text
        {
          assert tail[k] == addrs[k + 1];
          if CacheKey(tail[k].text) == CacheKey(a.text) {
            assert tail[k] == a;
          } else {
            assert st1.entries[CacheKey(tail[k].text)] == st.entries[CacheKey(tail[k].text)];
          }
        }
      }
      FetchAllTypes(st1, tail, svc);
    }
  }

  /** After the lookup every resolved address is in the cache. */
  lemma {:induction false} FetchAllCaches(st: CacheState, addrs: seq<IpAddress>, svc: Services)
    ensures forall k :: 0 <= k < |addrs| ==> CacheKey(addrs[k].text) in FetchAll(st, addrs, svc).1.entries
    decreases |addrs|
  {
    if addrs != [] {
      var (info, st1) := Fetch(st, IpType(addrs[0]), addrs[0].text, svc);
      FetchAllCaches(st1, addrs[1..], svc);
      FetchAllKeepsKeys(st1, addrs[1..], svc);
      forall k | 0 <= k < |addrs| ensures CacheKey(addrs[k].text) in FetchAll(st, addrs, svc).1.entries {
        if k > 0 { assert addrs[k] == addrs[1..][k - 1]; }
      }
    }
  }

  /** Fetching never drops an entry. */
  lemma {:induction false} FetchAllKeepsKeys(st: CacheState, addrs: seq<IpAddress>, svc: Services)
    ensures st.entries.Keys <= FetchAll(st, addrs, svc).1.entries.Keys
    decreases |addrs|
  {
    if addrs != [] {
      var (info, st1) := Fetch(st, IpType(addrs[0]), addrs[0].text, svc);
      FetchAllKeepsKeys(st1, addrs[1..], svc);
    }
  }

  /**
   * LookupDomainIps: the host is cut at its first ':'; a resolver failure
   * gives no records and leaves the cache alone; otherwise one record per
   * resolved address, in resolver order, each fetched as FetchIpInfo does.
   */
  method LookupDomainIps(cache: Cache, host: string, dns: string -> DnsResult, svc: Services) returns (ipList: seq<IpRecord>)
    modifies cache
    ensures dns(LookupHost(host)).DnsFailed? ==>
      ipList == [] && cache.entries == old(cache.entries) && cache.file == old(cache.file)
    ensures dns(LookupHost(host)).Resolved? ==>
      (ipList, CacheState(cache.entries, cache.file))
        == FetchAll(CacheState(old(cache.entries), old(cache.file)), dns(LookupHost(host)).addresses, svc)
  {
    var h := host;
    if ':' in h {
      h := Split(h, ':')[0];
    }
    assert h == LookupHost(host);
    var res := dns(h);
    if res.DnsFailed? {
      return [];
    }
    ipList := FetchAddresses(cache, res.addresses, svc);
  }

  /** The loop of LookupDomainIps over the resolved addresses. */
  method FetchAddresses(cache: Cache, ips: seq<IpAddress>, svc: Services) returns (ipList: seq<IpRecord>)
    modifies cache
    ensures (ipList, CacheState(cache.entries, cache.file)) == FetchAll(CacheState(old(cache.entries), old(cache.file)), ips, svc)
  {
    assert ips[0..] == ips;
    ghost var goal := FetchAll(CacheState(cache.entries, cache.file), ips, svc);
    assert goal == FetchAll(CacheState(old(cache.entries), old(cache.file)), ips, svc);
    ipList := [];
    var i := 0;
    while i < |ips|
      invariant 0 <= i <= |ips|
      invariant goal.0 == ipList + FetchAll(CacheState(cache.entries, cache.file), ips[i..], svc).0
      invariant goal.1 == FetchAll(CacheState(cache.entries, cache.file), ips[i..], svc).1
    {
      ghost var st := CacheState(cache.entries, cache.file);
      var info, err := FetchIpInfo(cache, IpType(ips[i]), ips[i].text, svc);
      LoopStep(goal, ipList, st, ips, i, info, CacheState(cache.entries, cache.file), svc);
      if err.None? {
        ipList := ipList + [info];
      }
      i := i + 1;
    }
    ghost var fin := CacheState(cache.entries, cache.file);
    assert ips[i..] == [];
    assert FetchAll(fin, ips[i..], svc) == ([], fin);
    assert goal.0 == ipList + [] == ipList;
    assert goal.1 == fin;
    assert goal == (ipList, fin);
  }

  /** The invariant of FetchAddresses survives one fetch. */
  lemma LoopStep(goal: (seq<IpRecord>, CacheState), ipList: seq<IpRecord>, st: CacheState, ips: seq<IpAddress>, i: nat,
                 info: IpRecord, st1: CacheState, svc: Services)
    requires i < |ips|
    requires goal.0 == ipList + FetchAll(st, ips[i..], svc).0 && goal.1 == FetchAll(st, ips[i..], svc).1
    requires (info, st1) == Fetch(st, IpType(ips[i]), ips[i].text, svc)
    ensures goal.0 == (ipList + [info]) + FetchAll(st1, ips[i + 1..], svc).0
    ensures goal.1 == FetchAll(st1, ips[i + 1..], svc).1
  {
    FetchAllStep(st, ips, i, svc);
    var rest := FetchAll(st1, ips[i + 1..], svc);
    assert FetchAll(st, ips[i..], svc) == ([info] + rest.0, rest.1);
    assert ipList + ([info] + rest.0) == (ipList + [info]) + rest.0;
  }

  /** One address of the lookup loop: its fetch, then the rest from the state it leaves. */
  lemma FetchAllStep(st: CacheState, addrs: seq<IpAddress>, i: nat, svc: Services)
    requires i < |addrs|
    ensures var first := Fetch(st, IpType(addrs[i]), addrs[i].text, svc);
      var rest := FetchAll(first.1, addrs[i + 1..], svc);
      FetchAll(st, addrs[i..], svc) == ([first.0] + rest.0, rest.1)
  {
    assert addrs[i..][0] == addrs[i] && addrs[i..][1..] == addrs[i + 1..];
  }

}

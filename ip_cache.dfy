/**
 * The persistent IP-metadata cache: a key/value store addressed by the IP
 * text with '.' turned into '_', written back to its file after each store.
 */
module IpCache {
  import opened Wrappers
  import opened Strings

  /** The eleven fields a cached entry carries (Type, Ip, Decimal, ... Longitude). */
  datatype IpRecord = IpRecord(
    ipType: string,
    ip: string,
    decimal: string,
    hostname: string,
    asn: string,
    isp: string,
    state: string,
    city: string,
    country: string,
    latitude: real,
    longitude: real)

  /** The store's key for an ip: every '.' replaced by '_'. */
  function CacheKey(ip: string): (k: string)
    ensures '.' !in k
    ensures |k| == |ip|
    ensures forall i :: 0 <= i < |ip| ==> k[i] == (if ip[i] == '.' then '_' else ip[i])
  {
    if ip == [] then [] else [if ip[0] == '.' then '_' else ip[0]] + CacheKey(ip[1..])
  }

  /** CacheKey is the ReplaceAll the source applies. */
  lemma {:induction false} CacheKeyIsReplaceAll(ip: string)
    ensures CacheKey(ip) == ReplaceAll(ip, '.', "_")
  {
    if ip != [] {
      CacheKeyIsReplaceAll(ip[1..]);
    }
  }

  /** Keys are fixed points: sanitising a key again changes nothing. */
  lemma CacheKeyIdempotent(ip: string)
    ensures CacheKey(CacheKey(ip)) == CacheKey(ip)
  {
  }

  /** Two ips address the same entry exactly when they agree outside the '.'/'_' distinction. */
  lemma CacheKeyAliases(a: string, b: string)
    requires |a| == |b|
    requires forall i :: 0 <= i < |a| ==> a[i] == b[i] || (a[i] in {'.', '_'} && b[i] in {'.', '_'})
    ensures CacheKey(a) == CacheKey(b)
  {
  }

  /** What a lookup in `entries` answers for `ip`. */
  function Lookup(entries: map<string, IpRecord>, ip: string): (r: Option<IpRecord>)
    ensures r.Some? <==> CacheKey(ip) in entries
    ensures r.Some? ==> r.value == entries[CacheKey(ip)]
  {
    var key := CacheKey(ip);
    if key in entries then Some(entries[key]) else None
  }

  /** The store after setting `ip` to `info`. */
  function Store(entries: map<string, IpRecord>, ip: string, info: IpRecord): (r: map<string, IpRecord>)
    ensures r.Keys == entries.Keys + {CacheKey(ip)}
  {
    entries[CacheKey(ip) := info]
  }

  /** A get right after a set of the same ip answers what was set. */
  lemma GetAfterSet(entries: map<string, IpRecord>, ip: string, info: IpRecord)
    ensures Lookup(Store(entries, ip, info), ip) == Some(info)
  {
  }

  /** A set leaves the answer for every other key unchanged. */
  lemma GetAfterSetOther(entries: map<string, IpRecord>, ip: string, info: IpRecord, other: string)
    requires CacheKey(other) != CacheKey(ip)
    ensures Lookup(Store(entries, ip, info), other) == Lookup(entries, other)
  {
  }

  /** Nothing is found in an empty store. */
  lemma GetFromEmpty(ip: string)
    ensures Lookup(map[], ip) == None
  {
  }

  /** "10.0.0.1" and "10_0_0_1" address the same entry. */
  lemma DotsAndUnderscoresAlias(entries: map<string, IpRecord>, info: IpRecord)
    ensures Lookup(Store(entries, "10.0.0.1", info), "10_0_0_1") == Some(info)
  {
    CacheKeyAliases("10.0.0.1", "10_0_0_1");
  }

  /**
   * The cache: `entries` is the in-memory store, `file` what the cache file
   * holds (None when there is no file). Writes of the file whose error the
   * source ignores are modelled by `writeOk`.
   */
  class Cache {
    var entries: map<string, IpRecord>
    var file: Option<map<string, IpRecord>>

    /** A fresh store reads the cache file, if there is one; a read error leaves it empty. */
    constructor (onDisk: Option<map<string, IpRecord>>)
      ensures entries == onDisk.GetOr(map[]) && file == onDisk
    {
      entries := onDisk.GetOr(map[]);
      file := onDisk;
    }

    /** GetIpInfoFromCache: the entry under the ip's key, if there is one. */
    method Get(ip: string) returns (info: Option<IpRecord>)
      ensures info == Lookup(entries, ip)
      ensures info.Some? <==> CacheKey(ip) in entries
    {
      var key := CacheKey(ip);
      if key in entries {
        info := Some(entries[key]);
      } else {
        info := None;
      }
    }

    /** SetIpInfoToCache: stores under the ip's key, then writes the whole store to the file. */
    method Set(ip: string, info: IpRecord, writeOk: bool)
      modifies this
      ensures entries == Store(old(entries), ip, info)
      ensures file == if writeOk then Some(entries) else old(file)
    {
      entries := entries[CacheKey(ip) := info];
      if writeOk {
        file := Some(entries);
      }
    }

    /**
     * ClearCache: the store is written out, the file removed, and a fresh
     * store read from whatever file is left. When the removal succeeds the
     * cache is empty; when it fails the file written (or, if that write
     * failed too, the old file) is read back in.
     */
    method Clear(writeOk: bool, removeOk: bool)
      modifies this
      ensures removeOk ==> entries == map[] && file == None
      ensures removeOk ==> forall ip :: Lookup(entries, ip) == None
      ensures !removeOk && writeOk ==> file == Some(old(entries)) && entries == old(entries)
      ensures !removeOk && !writeOk ==> file == old(file) && entries == old(file).GetOr(map[])
    {
      if writeOk {
        file := Some(entries);
      }
      if removeOk {
        file := None;
      }
      entries := file.GetOr(map[]);
    }
  }
}

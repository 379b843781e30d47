/**
 * The root command: argument validation, the -H header flags and the
 * decision between help, a fatal error, the body menu and running the
 * request.
 */
module RequestCommand {
  import opened Wrappers
  import opened Strings
  import HttpUtility
  import Request

  /** A byte allowed in a header field name (an RFC 7230 token character). */
  predicate IsTokenChar(c: char) {
    ('a' <= c <= 'z') || ('A' <= c <= 'Z') || ('0' <= c <= '9')
    || c in {'!', '#', '$', '%', '&', '\'', '*', '+', '-', '.', '^', '_', '`', '|', '~'}
  }

  predicate AllTokenChars(s: string) {
    forall i :: 0 <= i < |s| ==> IsTokenChar(s[i])
  }

  function ToUpperChar(c: char): char {
    if 'a' <= c <= 'z' then (c as int - 32) as char else c
  }

  /** Upper case at the start and after each '-', lower case elsewhere. */
  function Canonicalise(s: string, upper: bool): (r: string)
    ensures |r| == |s|
    ensures forall i :: 0 <= i < |s| ==> ToLowerChar(r[i]) == ToLowerChar(s[i])
  {
    if s == [] then []
    else
      var c := if upper then ToUpperChar(s[0]) else ToLowerChar(s[0]);
      [c] + Canonicalise(s[1..], c == '-')
  }

  /**
   * The key http.Header.Add files a value under (CanonicalMIMEHeaderKey):
   * the canonical casing when every character is a token character, the
   * key unchanged otherwise.
   */
  function CanonicalKey(s: string): (r: string)
    ensures |r| == |s|
    ensures !AllTokenChars(s) ==> r == s
    ensures ToLower(r) == ToLower(s)
  {
    if AllTokenChars(s) then Canonicalise(s, true) else s
  }

  /** Canonicalising keeps every character a token character. */
  lemma {:induction false} CanonicaliseTokens(s: string, upper: bool)
    requires AllTokenChars(s)
    ensures AllTokenChars(Canonicalise(s, upper))
  {
    if s != [] {
      assert AllTokenChars(s[1..]) by {
        forall i | 0 <= i < |s[1..]| ensures IsTokenChar(s[1..][i]) { assert s[1..][i] == s[i + 1]; }
      }
      var c := if upper then ToUpperChar(s[0]) else ToLowerChar(s[0]);
      CanonicaliseTokens(s[1..], c == '-');
    }
  }

  /** Two keys that differ only in letter case go under one canonical key. */
  lemma {:induction false} CanonicaliseCaseInsensitive(a: string, b: string, upper: bool)
    requires |a| == |b| && forall i :: 0 <= i < |a| ==> ToLowerChar(a[i]) == ToLowerChar(b[i])
    ensures Canonicalise(a, upper) == Canonicalise(b, upper)
  {
    if a != [] {
      assert ToLowerChar(a[0]) == ToLowerChar(b[0]);
      assert ToUpperChar(a[0]) == ToUpperChar(b[0]);
      var c := if upper then ToUpperChar(a[0]) else ToLowerChar(a[0]);
      forall i | 0 <= i < |a[1..]| ensures ToLowerChar(a[1..][i]) == ToLowerChar(b[1..][i]) {
        assert a[1..][i] == a[i + 1] && b[1..][i] == b[i + 1];
      }
      CanonicaliseCaseInsensitive(a[1..], b[1..], c == '-');
    }
  }

  /** Header keys are case-insensitive: keys equal up to case are filed together. */
  lemma CanonicalKeyCaseInsensitive(a: string, b: string)
    requires AllTokenChars(a) && ToLower(a) == ToLower(b)
    ensures CanonicalKey(a) == CanonicalKey(b)
  {
    assert |a| == |ToLower(a)| == |ToLower(b)| == |b|;
    forall i | 0 <= i < |b| ensures IsTokenChar(b[i]) {
      assert ToLower(a)[i] == ToLower(b)[i];
      assert ToLowerChar(a[i]) == ToLowerChar(b[i]);
    }
    forall i | 0 <= i < |a| ensures ToLowerChar(a[i]) == ToLowerChar(b[i]) {
      assert ToLower(a)[i] == ToLower(b)[i];
    }
    CanonicaliseCaseInsensitive(a, b, true);
  }

  /** A canonical key is its own canonical key. */
  lemma CanonicalKeyIdempotent(s: string)
    ensures CanonicalKey(CanonicalKey(s)) == CanonicalKey(s)
  {
    if AllTokenChars(s) {
      CanonicaliseTokens(s, true);
      var r := CanonicalKey(s);
      assert ToLower(r) == ToLower(s);
      CanonicalKeyCaseInsensitive(r, s);
    }
  }

  /**
   * One -H entry split at its first ':' into a trimmed key and a trimmed
   * value; None for an entry without ':'.
   */
  function ParseHeaderEntry(entry: string): (r: Option<(string, string)>)
    ensures r.None? <==> ':' !in entry
  {
    var i := IndexOf(entry, ':');
    if i == |entry| then None else Some((TrimSpace(entry[..i]), TrimSpace(entry[i + 1..])))
  }

  /** The split is at the first ':': later colons stay in the value. */
  lemma SplitAtFirstColon(key: string, value: string)
    requires ':' !in key
    ensures ParseHeaderEntry(key + [':'] + value) == Some((TrimSpace(key), TrimSpace(value)))
  {
    var e := key + [':'] + value;
    assert e[|key|] == ':';
    assert ':' !in e[..|key|] by { assert e[..|key|] == key; }
    IndexOfIsFirst(e, ':', |key|);
    assert e[..|key|] == key && e[|key| + 1..] == value;
  }

  /** IndexOf finds the first occurrence. */
  lemma IndexOfIsFirst(s: string, c: char, k: nat)
    requires k < |s| && s[k] == c && c !in s[..k]
    ensures IndexOf(s, c) == k
  {
  }

  /** http.Header.Add: appends the value to the list under the key's canonical form. */
  function AddHeader(h: Request.Header, key: string, value: string): (r: Request.Header)
    ensures r.Keys == h.Keys + {CanonicalKey(key)}
    ensures r[CanonicalKey(key)] == (if CanonicalKey(key) in h then h[CanonicalKey(key)] else []) + [value]
    ensures forall k :: k in h && k != CanonicalKey(key) ==> r[k] == h[k]
  {
    var k := CanonicalKey(key);
    h[k := (if k in h then h[k] else []) + [value]]
  }

  /** The header map parseHeaders builds from a list of entries, taken in order. */
  function ParsedHeaders(entries: seq<string>): Request.Header {
    if entries == [] then map[]
    else
      var h := ParsedHeaders(entries[..|entries| - 1]);
      match ParseHeaderEntry(entries[|entries| - 1])
      case None => h
      case Some(kv) => AddHeader(h, kv.0, kv.1)
  }

  /**
   * The reference: the values of the entries whose parsed key is filed
   * under `k`, in input order.
   */
  function ValuesFor(entries: seq<string>, k: string): seq<string> {
    if entries == [] then []
    else
      var rest := ValuesFor(entries[..|entries| - 1], k);
      match ParseHeaderEntry(entries[|entries| - 1])
      case Some(kv) => if CanonicalKey(kv.0) == k then rest + [kv.1] else rest
      case None => rest
  }

  /**
   * The header map holds a key exactly when some entry contributed a value
   * to it, and the key's values are those entries' values in input order;
   * so a repeated key collects several values.
   */
  lemma {:induction false} ParsedHeadersValues(entries: seq<string>)
    ensures forall k :: k in ParsedHeaders(entries) <==> ValuesFor(entries, k) != []
    ensures forall k :: k in ParsedHeaders(entries) ==> ParsedHeaders(entries)[k] == ValuesFor(entries, k)
  {
    if entries != [] {
      ParsedHeadersValues(entries[..|entries| - 1]);
    }
  }

  /** An entry without ':' changes nothing. */
  lemma IgnoresEntryWithoutColon(entries: seq<string>, entry: string)
    requires ':' !in entry
    ensures ParsedHeaders(entries + [entry]) == ParsedHeaders(entries)
  {
    assert (entries + [entry])[..|entries|] == entries;
  }

  lemma ParsedHeadersSnoc(entries: seq<string>, e: string)
    ensures ParsedHeaders(entries + [e]) ==
      match ParseHeaderEntry(e)
      case None => ParsedHeaders(entries)
      case Some(kv) => AddHeader(ParsedHeaders(entries), kv.0, kv.1)
  {
    assert (entries + [e])[..|entries|] == entries;
  }

  /** parseHeaders: the loop over the entries calling Add. */
  method ParseHeaders(headers: seq<string>) returns (result: Request.Header)
    ensures result == ParsedHeaders(headers)
  {
    result := map[];
    for i := 0 to |headers|
      invariant result == ParsedHeaders(headers[..i])
    {
      assert headers[..i + 1] == headers[..i] + [headers[i]];
      ParsedHeadersSnoc(headers[..i], headers[i]);
      var parts := ParseHeaderEntry(headers[i]);
      if parts.Some? {
        var (key, value) := parts.value;
        var k := CanonicalKey(key);
        result := result[k := (if k in result then result[k] else []) + [value]];
      }
    }
    assert headers[..|headers|] == headers;
  }

  /** How the root command's Run ends. */
  datatype RunOutcome =
    | ShowHelp
    | Fatal(message: string)                         // logged, then Exit(1)
    | OpenBodyMenu(options: Request.RequestOptions)  // the body menu takes over; no request is run here
    | Execute(options: Request.RequestOptions)       // RunRequest, then the request menu

  const InvalidMethodMessage := "Invalid HTTP method. Please provide a valid HTTP method (GET, POST, PATCH, PUT, DELETE, HEAD)."
  const InvalidUrlMessage := "Invalid URL. Please provide a valid URL (http:// or https://)."
  const BodyNotAllowedMessage := "Body cannot be included in GET or HEAD requests."

  /** The options Run builds: normalised method, validated URL, parsed headers, no body and a 30 s timeout. */
  function BuildOptions(m: string, url: string, headers: seq<string>): Request.RequestOptions {
    Request.RequestOptions(30 * Request.Second, ParsedHeaders(headers), "", url, m)
  }

  /**
   * The root command's Run for positional `args`, the -H entries and the
   * -b flag. Fewer than two arguments shows help; the method is checked
   * before the URL; a body with GET or HEAD is refused.
   */
  function Run(args: seq<string>, headers: seq<string>, body: bool): (r: RunOutcome)
    ensures |args| < 2 <==> r == ShowHelp
    ensures |args| >= 2 ==>
      var m := Request.HandleHttpMethod(args[0]);
      var url := Request.HandleUrl(args[1]);
      && (m == "" <==> r == Fatal(InvalidMethodMessage))
      && (m != "" && url == "" <==> r == Fatal(InvalidUrlMessage))
      && (m != "" && url != "" && body && m in {"GET", "HEAD"} <==> r == Fatal(BodyNotAllowedMessage))
      && (r.OpenBodyMenu? <==> m != "" && url != "" && body && m !in {"GET", "HEAD"})
      && (r.Execute? <==> m != "" && url != "" && !body)
      && ((r.OpenBodyMenu? || r.Execute?) ==> r.options == BuildOptions(m, url, headers))
  {
    if |args| < 2 then ShowHelp
    else
      var m := Request.HandleHttpMethod(args[0]);
      if m == "" then Fatal(InvalidMethodMessage)
      else
        var url := Request.HandleUrl(args[1]);
        if url == "" then Fatal(InvalidUrlMessage)
        else if body && (m == "GET" || m == "HEAD") then Fatal(BodyNotAllowedMessage)
        else if body then OpenBodyMenu(BuildOptions(m, url, headers))
        else Execute(BuildOptions(m, url, headers))
  }

  /** Whatever is executed or handed to the body menu is a well-formed request. */
  lemma RunBuildsValidOptions(args: seq<string>, headers: seq<string>, body: bool)
    requires Run(args, headers, body).OpenBodyMenu? || Run(args, headers, body).Execute?
    ensures var o := Run(args, headers, body).options;
      && o.httpMethod in HttpUtility.Methods
      && HttpUtility.HasHttpScheme(o.url) && o.url == args[1]
      && o.timeout == 30_000_000_000
      && o.headers == ParsedHeaders(headers)
      && (Run(args, headers, body).OpenBodyMenu? ==> o.httpMethod !in {"GET", "HEAD"})
  {
  }
}

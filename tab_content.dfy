/**
 * The text behind four of the request menu's tabs: request infos (with the
 * response-time verdict and the request body), network infos, and the
 * request and response headers. Colours, word wrapping and number
 * formatting are not modelled: text that the source styles or wraps is
 * taken as is, and formatted numbers and content come from parameters.
 */
module TabContent {
  import opened Wrappers
  import opened Strings
  import StringOrder
  import HttpUtility
  import IpCache
  import Request

  // ---------------------------------------------------------------
  // Request infos
  // ---------------------------------------------------------------

  /** The colour the response time is shown in. */
  datatype Shade = Red | Yellow | Green

  /** The colour and the "(slow)"/"(fast)" word after the time. */
  datatype TimeVerdict = TimeVerdict(shade: Shade, name: string)

  /**
   * Above the threshold is red and slow, above 70% of it yellow and slow,
   * anything else green and fast.
   */
  function ExecutionVerdict(executionTime: real, threshold: int): (r: TimeVerdict)
    ensures r.shade == Red <==> executionTime > threshold as real
    ensures r.shade == Yellow <==> executionTime <= threshold as real && executionTime > threshold as real * 0.7
    ensures r.name == "(fast)" <==> r.shade == Green
    ensures r.name == "(slow)" <==> r.shade != Green
  {
    if executionTime > threshold as real then TimeVerdict(Red, "(slow)")
    else if executionTime > threshold as real * 0.7 then TimeVerdict(Yellow, "(slow)")
    else TimeVerdict(Green, "(fast)")
  }

  function Rank(s: Shade): nat {
    match s
    case Green => 0
    case Yellow => 1
    case Red => 2
  }

  /** A slower request never gets a better verdict, whatever the threshold. */
  lemma VerdictMonotone(t1: real, t2: real, threshold: int)
    requires t1 <= t2
    ensures Rank(ExecutionVerdict(t1, threshold).shade) <= Rank(ExecutionVerdict(t2, threshold).shade)
  {
  }

  /** Worked examples, the timings of the basic-infos tests: 100ms against 50 is slow and red; 200ms against 250 is slow and yellow; 10ms against 50 is fast. */
  lemma VerdictExamples()
    ensures ExecutionVerdict(100.0, 50) == TimeVerdict(Red, "(slow)")
    ensures ExecutionVerdict(200.0, 250) == TimeVerdict(Yellow, "(slow)")
    ensures ExecutionVerdict(10.0, 50) == TimeVerdict(Green, "(fast)")
  {
  }

  /** The file lines of a body part whose value is a path: found with its name, missing, or none for a non-path. */
  function FileLines(value: string, stat: string -> HttpUtility.StatResult): (r: string)
    ensures !HttpUtility.PathSyntaxOk(value) ==> r == ""
  {
    var (info, err) := HttpUtility.GetFileByPath(value, stat(value));
    if err.None? then "File status: Found and accessible\n" + "File name: " + info.name + "\n"
    else if info.pathIsValid then "File status: Not found or inaccessible\n"
    else ""
  }

  /**
   * One body part: content type, length, the file lines, and either the
   * key and value or the value as `format` renders it for its content type.
   */
  function PartText(part: HttpUtility.HttpContentData, stat: string -> HttpUtility.StatResult,
                    format: HttpUtility.HttpContentData -> string): string
  {
    "Content type: " + part.contentType + "\n"
    + "Content length: " + NatToString(|part.value|) + " bytes" + "\n"
    + FileLines(part.value, stat)
    + "Content: " + "\n\n"
    + (if part.key != "" then "Key: " + part.key + "\n" + "Value: " + part.value else format(part) + "\n")
  }

  function PartTexts(parts: seq<HttpUtility.HttpContentData>, stat: string -> HttpUtility.StatResult,
                     format: HttpUtility.HttpContentData -> string): (r: seq<string>)
    ensures |r| == |parts|
  {
    seq(|parts|, k requires 0 <= k < |parts| => PartText(parts[k], stat, format))
  }

  const BodyHeading: string := "\n" + "Request Body:" + "\n\n"
  const NoBodyMessage: string := "No request body available."

  /** The request-body section: the placeholder when there is no part, else the parts separated by blank lines. */
  function BodySection(parts: seq<HttpUtility.HttpContentData>, stat: string -> HttpUtility.StatResult,
                       format: HttpUtility.HttpContentData -> string): (r: string)
    ensures parts == [] ==> r == BodyHeading + NoBodyMessage + "\n"
    ensures |parts| == 1 ==> r == BodyHeading + PartText(parts[0], stat, format) + "\n"
  {
    if parts == [] then BodyHeading + NoBodyMessage + "\n"
    else
      assert |parts| == 1 ==> PartTexts(parts, stat, format) == [PartText(parts[0], stat, format)];
      BodyHeading + Join(PartTexts(parts, stat, format), "\n\n") + "\n"
  }

  /** basic_infos_body_Render */
  method RenderBody(parts: seq<HttpUtility.HttpContentData>, stat: string -> HttpUtility.StatResult,
                    format: HttpUtility.HttpContentData -> string) returns (content: string)
    ensures content == BodySection(parts, stat, format)
  {
    content := BodyHeading;
    if |parts| == 0 {
      content := content + NoBodyMessage + "\n";
      return;
    }
    var partsText := RenderParts(parts, stat, format);
    content := content + partsText;
  }

  /** The loop of basic_infos_body_Render: the parts separated by blank lines, a newline after the last. */
  method RenderParts(parts: seq<HttpUtility.HttpContentData>, stat: string -> HttpUtility.StatResult,
                     format: HttpUtility.HttpContentData -> string) returns (content: string)
    requires parts != []
    ensures content == Join(PartTexts(parts, stat, format), "\n\n") + "\n"
  {
    ghost var texts := PartTexts(parts, stat, format);
    content := "";
    var i := 0;
    while i < |parts|
      invariant 0 <= i <= |parts| == |texts|
      invariant content == PartialBody(texts, i)
    {
      var text := NthPartText(parts, stat, format, i);
      var sep := if i > 0 && i < |parts| then "\n\n" else "";
      var tail := if i >= |parts| - 1 then "\n" else "";
      SectionStep(texts, i, content, sep, text, tail);
      content := content + sep + text + tail;
      i := i + 1;
    }
    assert texts[..i] == texts;
  }

  /** The text of the i-th part, as the body loop builds it. */
  method NthPartText(parts: seq<HttpUtility.HttpContentData>, stat: string -> HttpUtility.StatResult,
                     format: HttpUtility.HttpContentData -> string, i: nat) returns (text: string)
    requires i < |parts|
    ensures text == PartTexts(parts, stat, format)[i]
  {
    text := PartText(parts[i], stat, format);
  }

  /** What the body loop has written after i parts. */
  ghost function PartialBody(texts: seq<string>, i: nat): string
    requires i <= |texts|
  {
    Join(texts[..i], "\n\n") + (if i == |texts| then "\n" else "")
  }

  /** One pass of the body loop extends the joined prefix by one part. */
  lemma SectionStep(texts: seq<string>, i: nat, content: string, sep: string, text: string, tail: string)
    requires i < |texts| && text == texts[i]
    requires content == PartialBody(texts, i)
    requires sep == (if i > 0 && i < |texts| then "\n\n" else "") && tail == (if i >= |texts| - 1 then "\n" else "")
    ensures content + sep + text + tail == PartialBody(texts, i + 1)
  {
    var prefix := texts[..i];
    assert content == Join(prefix, "\n\n");
    assert texts[..i + 1] == prefix + [text];
    JoinSnoc(prefix, text, "\n\n");
    if i == 0 {
      assert prefix == [];
      assert Join(texts[..i + 1], "\n\n") == content + sep + text;
    } else {
      assert sep == "\n\n";
      assert Join(texts[..i + 1], "\n\n") == content + sep + text;
    }
  }

  /**
   * basic_infos_Render: status line, URL, response time with its verdict,
   * response size, then the body section. `formatMs` stands for the
   * two-decimal formatting of the time in milliseconds.
   */
  function BasicInfosText(response: Request.RequestResponse, threshold: int, formatMs: real -> string,
                          parts: seq<HttpUtility.HttpContentData>, stat: string -> HttpUtility.StatResult,
                          format: HttpUtility.HttpContentData -> string): (r: string)
    ensures HasPrefix(r, response.httpVersion + " " + response.httpMethod + " " + response.statusMessage + "\n\n")
    ensures HasSuffix(r, BodySection(parts, stat, format))
  {
    var head := response.httpVersion + " " + response.httpMethod + " " + response.statusMessage + "\n\n";
    var rest := SummaryLines(response, threshold, formatMs);
    var body := BodySection(parts, stat, format);
    ConcatEnds(head, rest, body);
    head + rest + body
  }

  /** The URL, response-time and response-size lines. */
  function SummaryLines(response: Request.RequestResponse, threshold: int, formatMs: real -> string): string {
    var verdict := ExecutionVerdict(response.executionTime, threshold);
    "URL: " + response.request.url + "\n"
    + "Response Time: " + formatMs(response.executionTime) + "ms " + verdict.name + "\n"
    + "Response Size: " + NatToString(|response.result|) + " bytes"
  }

  // ---------------------------------------------------------------
  // Network infos
  // ---------------------------------------------------------------

  /** One labelled line of an address block. */
  datatype Field = Field(name: string, value: string)

  function Optional(name: string, value: string): (r: seq<Field>)
    ensures value != "" ==> r == [Field(name, value)]
    ensures value == "" ==> r == []
  {
    if value != "" then [Field(name, value)] else []
  }

  /** The seven descriptive fields, each shown only when not empty. */
  const OptionalNames: seq<string> := ["Country: ", "City: ", "Decimal: ", "Hostname: ", "Region/State: ", "ASN: ", "ISP: "]

  function OptionalValues(info: IpCache.IpRecord): (r: seq<string>)
    ensures |r| == |OptionalNames|
  {
    [info.country, info.city, info.decimal, info.hostname, info.state, info.asn, info.isp]
  }

  /** The optional lines for names[i..j]. */
  function OptionalFrom(names: seq<string>, values: seq<string>, i: nat, j: nat): (r: seq<Field>)
    requires i <= j <= |names| == |values|
    ensures forall f :: f in r ==> f.value != "" && exists k :: i <= k < j && f == Field(names[k], values[k])
    ensures forall k :: i <= k < j && values[k] != "" ==> Field(names[k], values[k]) in r
    decreases j - i
  {
    if i == j then [] else Optional(names[i], values[i]) + OptionalFrom(names, values, i + 1, j)
  }

  /** The coordinates line, present when latitude and longitude are both non-zero. */
  function CoordinatesField(info: IpCache.IpRecord, coordinates: (real, real) -> string): seq<Field> {
    if info.latitude != 0.0 && info.longitude != 0.0
    then [Field("Coordinates: ", coordinates(info.latitude, info.longitude))] else []
  }

  /**
   * The lines of one address block: protocol and address, the descriptive
   * fields that are not empty, and the coordinates as `coordinates`
   * formats them.
   */
  function NetworkFields(info: IpCache.IpRecord, coordinates: (real, real) -> string): seq<Field> {
    [Field("Protocol: ", info.ipType), Field("IP Address: ", info.ip)]
    + OptionalFrom(OptionalNames, OptionalValues(info), 0, |OptionalNames|)
    + CoordinatesField(info, coordinates)
  }

  /**
   * Every block starts with the protocol and address lines; a descriptive
   * line appears exactly when its field is not empty, and the coordinates
   * line exactly when both coordinates are non-zero.
   */
  lemma NetworkFieldsShown(info: IpCache.IpRecord, coordinates: (real, real) -> string)
    ensures var r := NetworkFields(info, coordinates);
      && |r| >= 2 && r[0] == Field("Protocol: ", info.ipType) && r[1] == Field("IP Address: ", info.ip)
      && (forall k :: 0 <= k < |OptionalNames| ==>
            (Field(OptionalNames[k], OptionalValues(info)[k]) in r <==> OptionalValues(info)[k] != ""))
      && ((exists t :: Field("Coordinates: ", t) in r) <==> info.latitude != 0.0 && info.longitude != 0.0)
  {
    forall k | 0 <= k < |OptionalNames|
      ensures Field(OptionalNames[k], OptionalValues(info)[k]) in NetworkFields(info, coordinates) <==> OptionalValues(info)[k] != ""
    {
      OptionalLineShown(info, coordinates, k);
    }
    CoordinatesLineShown(info, coordinates);
  }

  /** The k-th descriptive line of a block is there exactly when its value is not empty. */
  lemma OptionalLineShown(info: IpCache.IpRecord, coordinates: (real, real) -> string, k: nat)
    requires k < |OptionalNames|
    ensures Field(OptionalNames[k], OptionalValues(info)[k]) in NetworkFields(info, coordinates) <==> OptionalValues(info)[k] != ""
  {
    var values := OptionalValues(info);
    var opt := OptionalFrom(OptionalNames, values, 0, |OptionalNames|);
    var coords := CoordinatesField(info, coordinates);
    var head := [Field("Protocol: ", info.ipType), Field("IP Address: ", info.ip)];
    assert NetworkFields(info, coordinates) == head + opt + coords;
    OptionalShown(values, k);
    var f := Field(OptionalNames[k], values[k]);
    assert f.name != "Protocol: " && f.name != "IP Address: " && f.name != "Coordinates: ";
    assert f !in head && f !in coords;
  }

  /** The coordinates line of a block is there exactly when both coordinates are non-zero. */
  lemma CoordinatesLineShown(info: IpCache.IpRecord, coordinates: (real, real) -> string)
    ensures (exists t :: Field("Coordinates: ", t) in NetworkFields(info, coordinates))
      <==> info.latitude != 0.0 && info.longitude != 0.0
  {
    var values := OptionalValues(info);
    var opt := OptionalFrom(OptionalNames, values, 0, |OptionalNames|);
    var coords := CoordinatesField(info, coordinates);
    var head := [Field("Protocol: ", info.ipType), Field("IP Address: ", info.ip)];
    var r := NetworkFields(info, coordinates);
    assert r == head + opt + coords;
    if info.latitude != 0.0 && info.longitude != 0.0 {
      assert coords[0] in r;
    }
    forall t | Field("Coordinates: ", t) in r
      ensures info.latitude != 0.0 && info.longitude != 0.0
    {
      CoordinatesNotOptional(values, t);
      assert Field("Coordinates: ", t) !in head;
    }
  }

  /** The seven names differ from one another. */
  lemma OptionalNamesDistinct(a: nat, b: nat)
    requires a < |OptionalNames| && b < |OptionalNames| && OptionalNames[a] == OptionalNames[b]
    ensures a == b
  {
  }

  /** A descriptive line is shown exactly when its value is not empty. */
  lemma OptionalShown(values: seq<string>, k: nat)
    requires |values| == |OptionalNames| && k < |OptionalNames|
    ensures Field(OptionalNames[k], values[k]) in OptionalFrom(OptionalNames, values, 0, |OptionalNames|) <==> values[k] != ""
  {
    var f := Field(OptionalNames[k], values[k]);
    if f in OptionalFrom(OptionalNames, values, 0, |OptionalNames|) {
      var k' :| 0 <= k' < |OptionalNames| && f == Field(OptionalNames[k'], values[k']);
      OptionalNamesDistinct(k, k');
    }
  }

  /** No descriptive line is the coordinates line. */
  lemma CoordinatesNotOptional(values: seq<string>, t: string)
    requires |values| == |OptionalNames|
    ensures Field("Coordinates: ", t) !in OptionalFrom(OptionalNames, values, 0, |OptionalNames|)
  {
    forall k | 0 <= k < |OptionalNames|
      ensures Field("Coordinates: ", t) != Field(OptionalNames[k], values[k])
    {
      NotCoordinatesName(k);
    }
  }

  lemma NotCoordinatesName(k: nat)
    requires k < |OptionalNames|
    ensures OptionalNames[k] != "Coordinates: "
  {
    assert |OptionalNames[k]| != 13;
  }

  /** Each line ends in a newline, except the coordinates line. */
  function FieldText(f: Field): string {
    f.name + f.value + (if f.name == "Coordinates: " then "" else "\n")
  }

  /** The text of an address block. */
  function BlockText(fields: seq<Field>): string {
    if fields == [] then "" else FieldText(fields[0]) + BlockText(fields[1..])
  }

  function Blocks(infos: seq<IpCache.IpRecord>, coordinates: (real, real) -> string): (r: seq<string>)
    ensures |r| == |infos|
  {
    seq(|infos|, k requires 0 <= k < |infos| => BlockText(NetworkFields(infos[k], coordinates)))
  }

  /** network_infos_Render: the blocks separated by blank lines, with trailing newlines and spaces cut. */
  function NetworkText(infos: seq<IpCache.IpRecord>, coordinates: (real, real) -> string): (r: string)
    ensures infos == [] ==> r == ""
  {
    TrimRight(Join(Blocks(infos, coordinates), "\n\n"), {'\n', ' '})
  }

  /** network_infos_Render */
  method RenderNetwork(infos: seq<IpCache.IpRecord>, coordinates: (real, real) -> string) returns (content: string)
    ensures content == NetworkText(infos, coordinates)
  {
    ghost var all := Blocks(infos, coordinates);
    var blocks: seq<string> := [];
    for i := 0 to |infos|
      invariant |all| == |infos|
      invariant blocks == all[..i]
    {
      var block := NthBlock(infos, coordinates, i);
      assert all[..i + 1] == all[..i] + [all[i]];
      blocks := blocks + [block];
    }
    assert all[..|infos|] == all;
    content := TrimRight(Join(blocks, "\n\n"), {'\n', ' '});
  }

  /** The text of the i-th address block, as the network loop builds it. */
  method NthBlock(infos: seq<IpCache.IpRecord>, coordinates: (real, real) -> string, i: nat) returns (block: string)
    requires i < |infos|
    ensures block == Blocks(infos, coordinates)[i]
  {
    block := BlockText(NetworkFields(infos[i], coordinates));
  }

  // ---------------------------------------------------------------
  // Request and response headers
  // ---------------------------------------------------------------

  /** The header names that have at least one value. */
  function NonEmptyKeys(h: Request.Header): (r: set<string>)
    ensures forall k :: k in r <==> k in h && |h[k]| > 0
  {
    set k | k in h && |h[k]| > 0
  }

  /** "name: first value" for each name, in the order given. */
  function HeaderLines(h: Request.Header, keys: seq<string>): (r: seq<string>)
    requires forall k :: k in keys ==> k in h && |h[k]| > 0
    ensures |r| == |keys|
  {
    if keys == [] then []
    else HeaderLines(h, keys[..|keys| - 1]) + [keys[|keys| - 1] + ": " + h[keys[|keys| - 1]][0]]
  }

  lemma {:induction false} HeaderLinesAt(h: Request.Header, keys: seq<string>, i: nat)
    requires forall k :: k in keys ==> k in h && |h[k]| > 0
    requires i < |keys|
    ensures HeaderLines(h, keys)[i] == keys[i] + ": " + h[keys[i]][0]
    decreases |keys|
  {
    if i < |keys| - 1 {
      var init := keys[..|keys| - 1];
      assert forall k :: k in init ==> k in keys;
      HeaderLinesAt(h, init, i);
      assert init[i] == keys[i];
    }
  }

  /** The headers with values, sorted by name, one "name: first value" per line. */
  ghost function HeadersText(h: Request.Header): (r: string)
    ensures NonEmptyKeys(h) == {} ==> r == ""
  {
    var keys := StringOrder.Sorted(NonEmptyKeys(h));
    assert keys != [] ==> keys[0] in NonEmptyKeys(h);
    Join(HeaderLines(h, keys), "\n")
  }

  /** request_headers_Render: the placeholder for an empty header map, else the header lines. */
  ghost function RequestHeadersText(h: Request.Header): (r: string)
    ensures |h| == 0 ==> r == "No request headers found."
    ensures |h| > 0 ==> r == HeadersText(h)
  {
    if |h| < 1 then "No request headers found." else HeadersText(h)
  }

  /** The names of the headers that have a value, in any order, each once. */
  method CollectKeys(h: Request.Header) returns (keys: seq<string>)
    ensures forall k :: k in keys <==> k in NonEmptyKeys(h)
    ensures forall i, j :: 0 <= i < j < |keys| ==> keys[i] != keys[j]
  {
    keys := [];
    var rest := h.Keys;
    while rest != {}
      invariant rest <= h.Keys
      invariant forall k :: k in keys <==> k in h && k !in rest && |h[k]| > 0
      invariant forall i, j :: 0 <= i < j < |keys| ==> keys[i] != keys[j]
      decreases rest
    {
      var k :| k in rest;
      if |h[k]| > 0 {
        keys := keys + [k];
      }
      rest := rest - {k};
    }
  }

  /** sort.Strings on names without duplicates. */
  method SortStrings(xs: seq<string>) returns (sorted: seq<string>)
    requires forall i, j :: 0 <= i < j < |xs| ==> xs[i] != xs[j]
    ensures StringOrder.Strict(sorted)
    ensures forall x :: x in sorted <==> x in xs
  {
    sorted := [];
    for i := 0 to |xs|
      invariant StringOrder.Strict(sorted)
      invariant forall x :: x in sorted <==> x in xs[..i]
    {
      assert xs[i] !in xs[..i];
      sorted := StringOrder.Insert(sorted, xs[i]);
      assert xs[..i + 1] == xs[..i] + [xs[i]];
    }
    assert xs[..|xs|] == xs;
  }

  /** The loop that writes the lines, with a newline after each line but the last. */
  method JoinLines(h: Request.Header, keys: seq<string>) returns (content: string)
    requires forall k :: k in keys ==> k in h && |h[k]| > 0
    ensures content == Join(HeaderLines(h, keys), "\n")
  {
    ghost var lines := HeaderLines(h, keys);
    content := "";
    for i := 0 to |keys|
      invariant content == Join(lines[..i], "\n") + (if 0 < i < |keys| then "\n" else "")
    {
      HeaderLinesAt(h, keys, i);
      JoinLoopStep(lines, i, "\n", content);
      var line := keys[i] + ": " + h[keys[i]][0];
      assert line == lines[i];
      content := content + line;
      if i < |keys| - 1 {
        content := content + "\n";
      }
    }
    assert lines[..|keys|] == lines;
  }

  /** The sorted header lines, as both header tabs build them. */
  method RenderHeaderLines(h: Request.Header) returns (content: string)
    ensures content == HeadersText(h)
  {
    var collected := CollectKeys(h);
    var keys := SortStrings(collected);
    StringOrder.SortedIsUnique(keys, NonEmptyKeys(h));
    content := JoinLines(h, keys);
  }

  /** request_headers_Render */
  method RenderRequestHeaders(h: Request.Header) returns (content: string)
    ensures content == RequestHeadersText(h)
  {
    if |h| < 1 {
      return "No request headers found.";
    }
    content := RenderHeaderLines(h);
  }

  /** response_headers_Render: no placeholder, so an empty map gives "". */
  method RenderResponseHeaders(h: Request.Header) returns (content: string)
    ensures content == HeadersText(h)
    ensures |h| == 0 ==> content == ""
  {
    content := RenderHeaderLines(h);
  }

  /** A header without values adds no line: the text is that of the map without it. */
  lemma OmitsEmptyValues(h: Request.Header, k: string)
    requires k in h && |h[k]| == 0
    ensures HeadersText(h) == HeadersText(h - {k})
  {
    assert NonEmptyKeys(h) == NonEmptyKeys(h - {k});
    var keys := StringOrder.Sorted(NonEmptyKeys(h));
    HeaderLinesSame(h, h - {k}, keys);
  }

  lemma {:induction false} HeaderLinesSame(h1: Request.Header, h2: Request.Header, keys: seq<string>)
    requires forall k :: k in keys ==> k in h1 && |h1[k]| > 0 && k in h2 && h2[k] == h1[k]
    ensures HeaderLines(h1, keys) == HeaderLines(h2, keys)
    decreases |keys|
  {
    if keys != [] {
      var init := keys[..|keys| - 1];
      assert forall k :: k in init ==> k in keys;
      HeaderLinesSame(h1, h2, init);
    }
  }
}

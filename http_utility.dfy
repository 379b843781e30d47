/**
 * Request-building helpers: method and URL validation, body encoders,
 * content sniffing and the syntactic file-path check.
 */
module HttpUtility {
  import opened Wrappers
  import opened Strings

  /** One body part as the body menu collects it. */
  datatype HttpContentData = HttpContentData(contentType: string, key: string, value: string)

  /** The `any` payload of a parse result; `J` is whatever the JSON decoder produces. */
  datatype Payload<J> = NoPayload | Decoded(doc: J) | Encoded(text: string)

  datatype HandleParseResult<J> = HandleParseResult(contentTypeHeader: string, result: Payload<J>)

  /**
   * A JSON body part: an empty result when the decoder rejects the value,
   * otherwise the decoded document under the part's declared content type.
   * `unmarshal` stands for json.Unmarshal.
   */
  function ParseApplicationJson<J>(data: HttpContentData, unmarshal: string -> Option<J>): (r: HandleParseResult<J>)
    ensures unmarshal(data.value).None? ==> r == HandleParseResult("", NoPayload)
    ensures unmarshal(data.value).Some? ==>
      r.contentTypeHeader == data.contentType && r.result == Decoded(unmarshal(data.value).value)
  {
    match unmarshal(data.value)
    case None => HandleParseResult("", NoPayload)
    case Some(doc) => HandleParseResult(data.contentType, Decoded(doc))
  }

  /** The form encoding of one key or value: ' ' becomes '+', then '=' becomes "%3D". */
  function EncodeFormComponent(s: string): string {
    ReplaceAll(ReplaceAll(s, ' ', "+"), '=', "%3D")
  }

  function EncodeFormPart(part: HttpContentData): string {
    EncodeFormComponent(part.key) + "=" + EncodeFormComponent(part.value)
  }

  /** The "k=v" strings of the parts, in input order. */
  function EncodeFormParts(data: seq<HttpContentData>): (r: seq<string>)
    ensures |r| == |data|
    ensures forall i :: 0 <= i < |data| ==> r[i] == EncodeFormPart(data[i])
  {
    if data == [] then [] else [EncodeFormPart(data[0])] + EncodeFormParts(data[1..])
  }

  /** The url-encoded body: every encoded part, in order, joined by '&'. */
  method ParseUrlEncodedForm<J>(data: seq<HttpContentData>) returns (r: HandleParseResult<J>)
    ensures r.contentTypeHeader == "application/x-www-form-urlencoded"
    ensures r.result == Encoded(Join(EncodeFormParts(data), "&"))
    ensures data == [] ==> r.result == Encoded("")
  {
    var formParts: seq<string> := [];
    for i := 0 to |data|
      invariant formParts == EncodeFormParts(data[..i])
    {
      assert data[..i + 1] == data[..i] + [data[i]];
      EncodeFormPartsAppend(data[..i], data[i]);
      formParts := formParts + [EncodeFormPart(data[i])];
    }
    assert data[..|data|] == data;
    r := HandleParseResult("application/x-www-form-urlencoded", Encoded(Join(formParts, "&")));
  }

  lemma EncodeFormPartsAppend(data: seq<HttpContentData>, p: HttpContentData)
    ensures EncodeFormParts(data + [p]) == EncodeFormParts(data) + [EncodeFormPart(p)]
  {
  }

  /** Encoded keys and values never contain a space or an '='. */
  lemma EncodeFormComponentClean(s: string)
    ensures ' ' !in EncodeFormComponent(s) && '=' !in EncodeFormComponent(s)
  {
    var t := ReplaceAll(s, ' ', "+");
    ReplaceAllAvoids(t, '=', "%3D", ' ');
  }

  /** ReplaceAll on a three-piece string where only the middle piece may hold `c`. */
  lemma ReplaceMiddle(a: string, m: string, b: string, c: char, rep: string)
    requires c !in a && c !in b
    ensures ReplaceAll(a + m + b, c, rep) == a + ReplaceAll(m, c, rep) + b
  {
    ReplaceAllConcat(a + m, b, c, rep);
    ReplaceAllConcat(a, m, c, rep);
  }

  /**
   * Worked example, the case of the form-encoding test: key "foo bar" and
   * value "baz=qux" encode as "foo+bar=baz%3Dqux". (The pieces are parameters so
   * that the solver does not unfold ReplaceAll on literals without bound.)
   */
  lemma EncodeFormExample(foo: string, bar: string, baz: string, qux: string, sp: string, eq: string)
    requires foo == "foo" && bar == "bar" && baz == "baz" && qux == "qux" && sp == " " && eq == "="
    ensures EncodeFormPart(HttpContentData("", foo + sp + bar, baz + eq + qux)) == "foo+bar" + "=" + "baz%3Dqux"
  {
    KeyExample(foo, bar, sp);
    ValueExample(baz, qux, eq);
  }

  /** The key half of the worked example: the space becomes '+', and there is no '=' to escape. */
  lemma KeyExample(foo: string, bar: string, sp: string)
    requires foo == "foo" && bar == "bar" && sp == " "
    ensures EncodeFormComponent(foo + sp + bar) == "foo+bar"
  {
    ReplaceMiddle(foo, sp, bar, ' ', "+");
    assert ReplaceAll(sp, ' ', "+") == "+";
    var key := ReplaceAll(foo + sp + bar, ' ', "+");
    assert key == "foo+bar";
    assert '=' !in key;
  }

  /** The value half of the worked example: no space to replace, and the '=' becomes "%3D". */
  lemma ValueExample(baz: string, qux: string, eq: string)
    requires baz == "baz" && qux == "qux" && eq == "="
    ensures EncodeFormComponent(baz + eq + qux) == "baz%3Dqux"
  {
    var value := baz + eq + qux;
    assert ' ' !in value by {
      assert ' ' !in baz && ' ' !in eq && ' ' !in qux;
    }
    assert ReplaceAll(value, ' ', "+") == value;
    EscapeEquals(baz, qux, eq);
  }

  /** The escaping step of ValueExample, on its own to keep that proof small. */
  lemma EscapeEquals(baz: string, qux: string, eq: string)
    requires baz == "baz" && eq == "=" && qux == "qux"
    ensures ReplaceAll(baz + eq + qux, '=', "%3D") == "baz%3Dqux"
  {
    ReplaceMiddle(baz, eq, qux, '=', "%3D");
    assert ReplaceAll(eq, '=', "%3D") == "%3D";
  }

  const Methods: set<string> := {"GET", "POST", "PUT", "DELETE", "PATCH", "HEAD"}
  const LowerMethods: set<string> := {"get", "post", "put", "delete", "patch", "head"}

  /**
   * Canonical upper-case method for any casing of the six supported ones,
   * "" for everything else.
   */
  function ParseHttpMethod(m: string): (r: string)
    ensures r == "" || r in Methods
    ensures r != "" <==> ToLower(m) in LowerMethods
    ensures r != "" ==> ToLower(r) == ToLower(m)
  {
    match ToLower(m)
    case "get" => "GET"
    case "post" => "POST"
    case "put" => "PUT"
    case "delete" => "DELETE"
    case "patch" => "PATCH"
    case "head" => "HEAD"
    case _ => ""
  }

  /** Canonicalising twice is canonicalising once. */
  lemma ParseHttpMethodIdempotent(m: string)
    ensures ParseHttpMethod(ParseHttpMethod(m)) == ParseHttpMethod(m)
  {
    var r := ParseHttpMethod(m);
    if r != "" {
      assert ToLower(r) == ToLower(m);
    } else {
      assert ToLower("") == "";
    }
  }

  predicate HasHttpScheme(url: string) {
    HasPrefix(url, "http://") || HasPrefix(url, "https://")
  }

  /** The URL itself when its scheme is http or https, "" otherwise. */
  function ParseUrl(url: string): (r: string)
    ensures r == "" || r == url
    ensures HasHttpScheme(url) <==> r != ""
  {
    if !HasHttpScheme(url) then "" else url
  }

  /**
   * Sniffs a response body: "json" for a trimmed text starting with '{' or
   * '[' that the decoder accepts (`isJson` stands for json.Unmarshal into a
   * RawMessage), then "html", then "xml", else "text".
   */
  function DetectContentType(result: string, isJson: string -> bool): (r: string)
    ensures r in {"json", "html", "xml", "text"}
    ensures var t := TrimSpace(result);
      && (r == "json" <==> (HasPrefix(t, "{") || HasPrefix(t, "[")) && isJson(t))
      && (r == "html" ==> HasPrefix(t, "<!DOCTYPE html") || HasPrefix(t, "<html"))
      && (r == "xml" ==> HasPrefix(t, "<?xml") || (HasPrefix(t, "<") && HasSuffix(t, ">")))
      && (r == "text" ==> !HasPrefix(t, "<?xml") && !(HasPrefix(t, "<") && HasSuffix(t, ">")))
  {
    var trimmed := TrimSpace(result);
    if (HasPrefix(trimmed, "{") || HasPrefix(trimmed, "[")) && isJson(trimmed) then "json"
    else if HasPrefix(trimmed, "<!DOCTYPE html") || HasPrefix(trimmed, "<html") then "html"
    else if HasPrefix(trimmed, "<?xml") || (HasPrefix(trimmed, "<") && HasSuffix(trimmed, ">")) then "xml"
    else "text"
  }

  datatype FileInfoData = FileInfoData(name: string, pathIsValid: bool)

  datatype FileError = ErrNotExist | ErrInvalid

  /** What os.Stat reports for the path. */
  datatype StatResult = StatFailed | Directory | RegularFile(baseName: string)

  /** The syntactic checks made before the filesystem is consulted. */
  predicate PathSyntaxOk(path: string) {
    && |TrimSpace(path)| != 0
    && !ContainsAny(path, {'\0'})
    && ContainsAny(path, {'/', '\\'})
    && ContainsAny(path, {'.'})
  }

  /**
   * Resolves a body part's value as a file: a syntactically bad path is
   * rejected as invalid, a good one that is missing or a directory is
   * valid but absent, and a regular file yields its base name.
   */
  function GetFileByPath(path: string, stat: StatResult): (r: (FileInfoData, Option<FileError>))
    ensures r.0.pathIsValid <==> PathSyntaxOk(path)
    ensures r.1.None? <==> PathSyntaxOk(path) && stat.RegularFile?
    ensures r.1.None? ==> r.0.name == stat.baseName
    ensures r.1.Some? ==> r.0.name == ""
    ensures |TrimSpace(path)| == 0 ==> r.1 == Some(ErrNotExist)
    ensures |TrimSpace(path)| != 0 && !PathSyntaxOk(path) ==> r.1 == Some(ErrInvalid)
    ensures PathSyntaxOk(path) && !stat.RegularFile? ==> r.1 == Some(ErrNotExist)
  {
    if |TrimSpace(path)| == 0 then (FileInfoData("", false), Some(ErrNotExist))
    else if ContainsAny(path, {'\0'}) then (FileInfoData("", false), Some(ErrInvalid))
    else if !ContainsAny(path, {'/', '\\'}) then (FileInfoData("", false), Some(ErrInvalid))
    else if !ContainsAny(path, {'.'}) then (FileInfoData("", false), Some(ErrInvalid))
    else match stat
      case RegularFile(name) => (FileInfoData(name, true), None)
      case _ => (FileInfoData("", true), Some(ErrNotExist))
  }

  /** A path rejected on syntax gets the same answer whatever the filesystem holds. */
  lemma GetFileByPathIgnoresFilesystem(path: string, s1: StatResult, s2: StatResult)
    requires !PathSyntaxOk(path)
    ensures GetFileByPath(path, s1) == GetFileByPath(path, s2)
  {
  }
}

/**
 * Response-body sniffing: json, html, xml or text. `isJson` stands for
 * json.Unmarshal into a RawMessage succeeding.
 */
module ContentType {
  import opened Strings
  import HttpUtility

  /** Detect */
  function Detect(result: string, isJson: string -> bool): (r: string)
    ensures r in {"json", "html", "xml", "text"}
    ensures r == HttpUtility.DetectContentType(result, isJson)
  {
    var trimmed := TrimSpace(result);
    if (HasPrefix(trimmed, "{") || HasPrefix(trimmed, "[")) && isJson(trimmed) then "json"
    else if HasPrefix(trimmed, "<!DOCTYPE html") || HasPrefix(trimmed, "<html") then "html"
    else if HasPrefix(trimmed, "<?xml") || (HasPrefix(trimmed, "<") && HasSuffix(trimmed, ">")) then "xml"
    else "text"
  }

  /** White space around the body does not change the verdict. */
  lemma DetectIgnoresPadding(a: string, s: string, b: string, isJson: string -> bool)
    requires AllSpace(a) && AllSpace(b)
    ensures Detect(a + s + b, isJson) == Detect(s, isJson)
  {
    TrimSpaceIgnoresPadding(a, s, b);
  }

  /** A body of white space only is text. */
  lemma BlankIsText(s: string, isJson: string -> bool)
    requires AllSpace(s)
    ensures Detect(s, isJson) == "text"
  {
    TrimSpaceIgnoresPadding(s, "", "");
    assert s + "" + "" == s;
    assert TrimSpace("") == "";
  }

  /** Text that does not start with '{' or '[' is never json, whatever the decoder says. */
  lemma JsonNeedsBracket(result: string, isJson: string -> bool)
    requires Detect(result, isJson) == "json"
    ensures HasPrefix(TrimSpace(result), "{") || HasPrefix(TrimSpace(result), "[")
    ensures isJson(TrimSpace(result))
  {
  }

  /** A text starting with an html prefix is html unless it is valid json. */
  lemma HtmlBeforeXml(result: string, isJson: string -> bool)
    requires HasPrefix(TrimSpace(result), "<!DOCTYPE html") || HasPrefix(TrimSpace(result), "<html")
    ensures Detect(result, isJson) == "html"
  {
    var t := TrimSpace(result);
    assert t[0] == '<';
  }

  /** A '<' without a closing '>' and without an xml declaration is text ("<notxml"). */
  lemma UnclosedTagIsText(result: string, isJson: string -> bool)
    requires HasPrefix(TrimSpace(result), "<") && !HasSuffix(TrimSpace(result), ">")
    requires !HasPrefix(TrimSpace(result), "<?xml")
    requires !HasPrefix(TrimSpace(result), "<!DOCTYPE html") && !HasPrefix(TrimSpace(result), "<html")
    ensures Detect(result, isJson) == "text"
  {
    var t := TrimSpace(result);
    assert t[0] == '<';
  }
}

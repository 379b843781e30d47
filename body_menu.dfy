/**
 * The request-body builder: a content type is picked from four choices,
 * then a text area (JSON, plain text) or the key/value editor (URL-encoded
 * form, multipart form) collects the body parts. The three interactive
 * components are not run here: their results are parameters.
 * New prints the parts it built; it never writes them back through the
 * body it is handed by reference, so the caller's body stays as it was.
 */
module BodyMenu {
  import opened Wrappers
  import HttpUtility
  import KeyValueMenu

  type RequestBody = HttpUtility.HttpContentData

  const Json := "application/json"
  const FormUrlEncoded := "application/x-www-form-urlencoded"
  const PlainText := "text/plain"
  const Multipart := "multipart/form-data"

  /** The content types offered, in menu order. */
  const Choices: seq<string> := [Json, FormUrlEncoded, PlainText, Multipart]

  /** What New ends with: the parts it prints, or ErrorLogger's message and Exit(code). */
  datatype MenuResult = Printed(parts: seq<RequestBody>) | Exit(code: int, message: string)

  /** The content type OnSelect records: the chosen entry, or "" when the menu ended without a choice. */
  function ContentTypeOf(chosen: Option<int>): (r: string)
    requires chosen.Some? ==> 0 <= chosen.value < |Choices|
    ensures chosen.Some? ==> r == Choices[chosen.value]
    ensures chosen.None? ==> r !in Choices
  {
    match chosen
    case Some(i) => Choices[i]
    case None => ""
  }

  /**
   * applicationJsonMenu and plainText: an empty submission exits with
   * status 1, a non-empty one is the single part, and a text area closed
   * without submitting gives no part.
   */
  function TextMenu(contentType: string, emptyMessage: string, submitted: Option<string>): (r: MenuResult)
    ensures submitted == Some("") ==> r == Exit(1, emptyMessage)
    ensures submitted.Some? && submitted.value != "" ==>
      r.Printed? && |r.parts| == 1 && r.parts[0].contentType == contentType && r.parts[0].value == submitted.value
    ensures submitted.None? ==> r == Printed([])
  {
    match submitted
    case None => Printed([])
    case Some(v) =>
      if v == "" then Exit(1, emptyMessage)
      else Printed([HttpUtility.HttpContentData(contentType, "", v)])
  }

  /** One part per pair, in pair order, each with the given content type. */
  function FormParts(contentType: string, pairs: seq<KeyValueMenu.KeyValue>): (r: seq<RequestBody>)
    ensures |r| == |pairs|
    ensures forall i :: 0 <= i < |pairs| ==>
      r[i].contentType == contentType && r[i].key == pairs[i].key && r[i].value == pairs[i].value
  {
    if pairs == [] then []
    else
      var last := pairs[|pairs| - 1];
      FormParts(contentType, pairs[..|pairs| - 1]) + [HttpUtility.HttpContentData(contentType, last.key, last.value)]
  }

  /** xWWWFormUrlEncodedMenu and multipartFormDataMenu: the loop over the pairs the key/value editor handed back. */
  method PairsToParts(contentType: string, resultPairs: seq<KeyValueMenu.KeyValue>) returns (bodyResult: seq<RequestBody>)
    ensures bodyResult == FormParts(contentType, resultPairs)
  {
    bodyResult := [];
    var i := 0;
    while i < |resultPairs|
      invariant 0 <= i <= |resultPairs|
      invariant bodyResult == FormParts(contentType, resultPairs[..i])
    {
      assert resultPairs[..i + 1][..i] == resultPairs[..i];
      bodyResult := bodyResult + [HttpUtility.HttpContentData(contentType, resultPairs[i].key, resultPairs[i].value)];
      i := i + 1;
    }
    assert resultPairs[..i] == resultPairs;
  }

  /**
   * New, given the select menu's choice, the text area's submission and
   * the key/value editor's pairs: the four content types go to their
   * menus, anything else is logged and exits with status 1.
   */
  function New(chosen: Option<int>, submitted: Option<string>, pairs: seq<KeyValueMenu.KeyValue>): (r: MenuResult)
    requires chosen.Some? ==> 0 <= chosen.value < |Choices|
    ensures chosen.None? ==> r == Exit(1, "Invalid Content-Type selected.")
    ensures r.Exit? ==> r.code == 1
    ensures r.Printed? ==> forall p :: p in r.parts ==> p.contentType == ContentTypeOf(chosen)
  {
    var contentType := ContentTypeOf(chosen);
    if contentType == Json then TextMenu(Json, "JSON body cannot be empty.", submitted)
    else if contentType == FormUrlEncoded then Printed(FormParts(FormUrlEncoded, pairs))
    else if contentType == PlainText then TextMenu(PlainText, "Plain text body cannot be empty.", submitted)
    else if contentType == Multipart then Printed(FormParts(Multipart, pairs))
    else Exit(1, "Invalid Content-Type selected.")
  }

  /** The two form types turn every pair into a part of that type, in order, whatever the text area did. */
  lemma FormChoices(i: int, submitted: Option<string>, pairs: seq<KeyValueMenu.KeyValue>)
    requires i == 1 || i == 3
    ensures var r := New(Some(i), submitted, pairs);
      && r.Printed? && |r.parts| == |pairs|
      && forall k :: 0 <= k < |pairs| ==>
           r.parts[k] == HttpUtility.HttpContentData(Choices[i], pairs[k].key, pairs[k].value)
  {
  }

  /** The two text types: an empty submission exits with status 1 and no part; a non-empty one is the one part. */
  lemma TextChoices(i: int, submitted: Option<string>, pairs: seq<KeyValueMenu.KeyValue>)
    requires i == 0 || i == 2
    ensures submitted == Some("") ==> New(Some(i), submitted, pairs).Exit?
    ensures submitted.Some? && submitted.value != "" ==>
      New(Some(i), submitted, pairs) == Printed([HttpUtility.HttpContentData(Choices[i], "", submitted.value)])
  {
  }
}

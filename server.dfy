/** The routes of the main Flask server (server.py): `/extract_imprint`, which reads
    the imprint code off an uploaded pill image, and `/get_pill_info`, which checks
    the request body and runs the catalog parser on the first detected text. */
module Server {
  import opened Text
  import opened JsonValue
  import opened Uploads
  import AwsRekognition
  import FdaData
  import HtmlParse

  const IndexErrorText := "list index out of range"

  function InternalError(details: string): Response
  {
    Response(500, ErrorBody("Internal Server Error", details))
  }

  /** `/extract_imprint`: the upload guards, then the text of the first OCR line; an
      empty OCR result or any exception is caught and becomes a 500. */
  function ExtractImprint(image: Option<Upload>, order: seq<string>, ocr: AwsRekognition.DetectOutcome): (r: Response)
    requires IsExtensionOrder(order)
    ensures UploadGuard(image, order).Some? ==> r == UploadGuard(image, order).value
    ensures UploadGuard(image, order).None? ==>
      match AwsRekognition.ExtractText(ocr)
      case Items(items) =>
        if items == [] then r == InternalError(IndexErrorText)
        else r == Response(200, ImprintBody(items[0].text))
      case Thrown(error) => r == InternalError(error.message)
    ensures r.code == 200 <==> r.body.ImprintBody?
  {
    match UploadGuard(image, order)
    case Some(rejection) => rejection
    case None =>
      match AwsRekognition.ExtractText(ocr)
      case Thrown(error) => InternalError(error.message)
      case Items(items) =>
        if items == [] then InternalError(IndexErrorText)
        else Response(200, ImprintBody(items[0].text))
  }

  /** On success the imprint code is the first LINE detection's text: the extractor's
      filter and the route's `results[0]` together pick it. */
  lemma ExtractImprintTakesFirstLine(image: Option<Upload>, order: seq<string>, detections: seq<AwsRekognition.Detection>, i: nat)
    requires IsExtensionOrder(order) && UploadGuard(image, order).None?
    requires i < |detections| && AwsRekognition.IsLine(detections[i])
    requires forall j :: 0 <= j < i ==> !AwsRekognition.IsLine(detections[j])
    ensures ExtractImprint(image, order, AwsRekognition.Detected(detections))
            == Response(200, ImprintBody(detections[i].detectedText))
  {
    AwsRekognition.LineItemsEmpty(detections[..i]);
    assert detections == detections[..i] + detections[i..];
    AwsRekognition.LineItemsAppend(detections[..i], detections[i..]);
  }

  /** A service error does not reach the client as such: the extractor swallows it,
      the list is empty, and `results[0]` fails. */
  lemma ClientErrorBecomesIndexError(image: Option<Upload>, order: seq<string>, message: string)
    requires IsExtensionOrder(order) && UploadGuard(image, order).None?
    ensures ExtractImprint(image, order, AwsRekognition.Failed(AwsRekognition.ClientError(message)))
            == InternalError(IndexErrorText)
  {
  }

  /** What `/get_pill_info` decides from its JSON body. */
  datatype PillInfoDecision =
    | BadRequest(error: string)
    | Proceed(imprintCode: Json)
    | Uncaught          // an exception escapes the handler: Flask answers 500

  const MissingCode := "Missing 'imprint_code' in JSON body"
  const NotAList := "'imprint_code' must be a non-empty list"
  const NoText := "Expected a dict with a 'text' key in the first element of 'imprint_code'"

  /** `"imprint_code" in data` for a truthy body that is not a dict: membership in a
      list, a substring test on a string, and a TypeError on a number or a bool. */
  function KeyTestOnNonDict(data: Json): (r: PillInfoDecision)
    requires !data.JObj?
    ensures data.JArr? && JStr("imprint_code") !in data.items ==> r == BadRequest(MissingCode)
    ensures data.JStr? && !Contains(data.s, "imprint_code") ==> r == BadRequest(MissingCode)
    ensures (data.JArr? && JStr("imprint_code") in data.items) || (data.JStr? && Contains(data.s, "imprint_code")) ==>
      r == Uncaught
    ensures !data.JArr? && !data.JStr? ==> r == Uncaught
  {
    match data
    case JArr(items) => if JStr("imprint_code") in items then Uncaught else BadRequest(MissingCode)
    case JStr(s) => if HasSubstring(s, "imprint_code") then Uncaught else BadRequest(MissingCode)
    case _ => Uncaught
  }

  /** The request-body checks of `get_pill_info`, in order. */
  function ValidatePillInfo(data: Option<Json>): (r: PillInfoDecision)
    ensures data.None? || !Truthy(data.value) ==> r == BadRequest(MissingCode)
    ensures data.Some? && data.value.JObj? && Get(data.value.fields, "imprint_code").None? ==> r == BadRequest(MissingCode)
    ensures data.Some? && Truthy(data.value) && !data.value.JObj? ==> r == KeyTestOnNonDict(data.value)
    ensures data.Some? && data.value.JObj? && Get(data.value.fields, "imprint_code").Some? &&
            (var list := Get(data.value.fields, "imprint_code").value; !list.JArr? || list.items == []) ==>
      r == BadRequest(NotAList)
    ensures data.Some? && data.value.JObj? && Get(data.value.fields, "imprint_code").Some? &&
            (var list := Get(data.value.fields, "imprint_code").value;
             list.JArr? && list.items != [] &&
             (!list.items[0].JObj? || Get(list.items[0].fields, "text").None?)) ==>
      r == BadRequest(NoText)
    ensures r.Proceed? <==>
      data.Some? && data.value.JObj? &&
      (var list := Get(data.value.fields, "imprint_code");
       list.Some? && list.value.JArr? && list.value.items != [] &&
       list.value.items[0].JObj? && Get(list.value.items[0].fields, "text").Some?)
    ensures r.Proceed? ==>
      Get(Get(data.value.fields, "imprint_code").value.items[0].fields, "text") == Some(r.imprintCode)
  {
    match data
    case None => BadRequest(MissingCode)
    case Some(body) =>
      if !Truthy(body) then BadRequest(MissingCode)
      else if !body.JObj? then KeyTestOnNonDict(body)
      else
        match Get(body.fields, "imprint_code")
        case None => BadRequest(MissingCode)
        case Some(list) =>
          if !list.JArr? || list.items == [] then BadRequest(NotAList)
          else
            var first := list.items[0];
            if !first.JObj? then BadRequest(NoText)
            else
              match Get(first.fields, "text")
              case None => BadRequest(NoText)
              case Some(text) => Proceed(text)
  }

  /** Only the first element is read: what follows it never changes the decision. */
  lemma LaterElementsIgnored(fields: seq<(string, Json)>, other: seq<(string, Json)>,
                             first: Json, rest1: seq<Json>, rest2: seq<Json>)
    requires Get(fields, "imprint_code") == Some(JArr([first] + rest1))
    requires Get(other, "imprint_code") == Some(JArr([first] + rest2))
    ensures ValidatePillInfo(Some(JObj(fields))) == ValidatePillInfo(Some(JObj(other)))
  {
  }

  /** A list body that happens to contain the string "imprint_code" passes the key
      test and then fails on `.get`: the handler raises instead of answering 400. */
  lemma ListBodyWithKeyRaises()
    ensures ValidatePillInfo(Some(JArr([JStr("imprint_code")]))) == Uncaught
  {
    assert JStr("imprint_code") in [JStr("imprint_code")];
  }

  datatype PillInfoResponse =
    | PillInfoError(code: nat, error: string)
    | PillInfo(pillNames: seq<string>, pillDescriptions: seq<HtmlParse.Dict>)

  /** `/get_pill_info`: validate, then parse the catalog page for the first text.
      A parse that raises (no names, or a failing summary) escapes as a 500; a page
      that did not load still answers 200 with empty lists. `str()` of the text is
      `repr` when it is not a string. */
  method GetPillInfo(data: Option<Json>, repr: Json -> string, page: Option<HtmlParse.Page>,
                     summarize: (string, string) -> FdaData.Summary)
    returns (r: PillInfoResponse)
    ensures ValidatePillInfo(data).BadRequest? ==> r == PillInfoError(400, ValidatePillInfo(data).error)
    ensures ValidatePillInfo(data).Uncaught? ==> r.PillInfoError? && r.code == 500
    ensures ValidatePillInfo(data).Proceed? && page.None? ==> r == PillInfo([], [])
    ensures ValidatePillInfo(data).Proceed? && page.Some? && page.value.nameLinks == [] ==>
      r.PillInfoError? && r.code == 500
    ensures ValidatePillInfo(data).Proceed? && page.Some? && page.value.nameLinks != [] ==>
      var code := PyStr(ValidatePillInfo(data).imprintCode, repr);
      if summarize(code, page.value.nameLinks[0]).SummaryRaised? then r.PillInfoError? && r.code == 500
      else r == PillInfo(page.value.nameLinks, HtmlParse.Descriptions(page.value.descLists))
  {
    var decision := ValidatePillInfo(data);
    match decision
    case BadRequest(error) =>
      r := PillInfoError(400, error);
    case Uncaught =>
      r := PillInfoError(500, "Internal Server Error");
    case Proceed(text) =>
      var parser := new HtmlParse.HtmlParser(PyStr(text, repr));
      var outcome := parser.ParseContent(page, summarize);
      if outcome == HtmlParse.NoNames || outcome == HtmlParse.SummaryFailed {
        r := PillInfoError(500, "Internal Server Error");
      } else {
        r := PillInfo(parser.pillNames, parser.pillDescriptions);
      }
  }
}

/** Label retrieval: the openFDA query URL, the purpose extraction from the label
    response, the composite cache key, the look-alike/sound-alike (LASA) correction
    path and the identification path, both over the Redis store.

    The network is the caller-supplied `network` (the response openFDA gives for a
    URL); `json.dumps`/`json.loads` are `dumps`/`loads`; `str()` of a non-string
    value is `repr`; the chat completion is `complete`. Each method reports the
    URLs it requested, in order, so that what reaches the network is observable. */
module FdaData {
  import opened Text
  import opened JsonValue
  import opened RedisCache
  import OpenAiCall

  const BaseUrl := "https://api.fda.gov/drug/label.json"
  const SearchLead := "?search=openfda.generic_name:\""
  const LimitLead := "\"&limit="
  const NotAvailable := "Not Available"
  const FailureLead := "Failed to fetch data. Status code: "
  /** Seconds a label stays in the cache. */
  const CacheTtl := 1800

  /** `generate_openfda_url(generic_name, limit=1)`. */
  function OpenFdaUrl(genericName: string, limit: nat := 1): (url: string)
    ensures IsPrefix(BaseUrl + SearchLead, url)
  {
    BaseUrl + SearchLead + genericName + LimitLead + Decimal(limit)
  }

  /** Reads the generic name and the limit back out of a query URL. The name is
      everything up to the last double quote, since the limit part holds none. */
  function ParseOpenFdaUrl(url: string): Option<(string, nat)>
  {
    var lead := BaseUrl + SearchLead;
    if !IsPrefix(lead, url) then None
    else
      var rest := url[|lead|..];
      match LastIndexOf(rest, '"')
      case None => None
      case Some(j) =>
        var tail := rest[j..];
        if !IsPrefix(LimitLead, tail) then None
        else
          var digits := tail[|LimitLead|..];
          if digits == [] || !AllDigits(digits) then None
          else Some((rest[..j], ParseDecimal(digits)))
  }

  /** The URL determines the name and the limit it was built from. */
  lemma UrlRoundTrip(genericName: string, limit: nat)
    ensures ParseOpenFdaUrl(OpenFdaUrl(genericName, limit)) == Some((genericName, limit))
  {
    var lead := BaseUrl + SearchLead;
    var url := OpenFdaUrl(genericName, limit);
    var digits := Decimal(limit);
    var rest := genericName + LimitLead + digits;
    assert url == lead + rest;
    assert url[|lead|..] == rest;
    var j := |genericName|;
    assert rest[j] == '"';
    forall k | j < k < |rest| ensures rest[k] != '"' {
      if k < j + |LimitLead| {
        assert rest[k] == LimitLead[k - j];
      } else {
        assert rest[k] == digits[k - j - |LimitLead|];
        assert IsDigit(digits[k - j - |LimitLead|]);
      }
    }
    assert LastIndexOf(rest, '"') == Some(j);
    assert rest[j..] == LimitLead + digits;
    assert rest[j..][|LimitLead|..] == digits;
    assert rest[..j] == genericName;
    ParseDecimalInverts(limit);
  }

  /** Distinct (name, limit) pairs never share a URL. */
  lemma UrlInjective(name1: string, limit1: nat, name2: string, limit2: nat)
    requires OpenFdaUrl(name1, limit1) == OpenFdaUrl(name2, limit2)
    ensures name1 == name2 && limit1 == limit2
  {
    UrlRoundTrip(name1, limit1);
    UrlRoundTrip(name2, limit2);
  }

  /** The default limit is 1. */
  lemma DefaultLimitIsOne(genericName: string)
    ensures ParseOpenFdaUrl(OpenFdaUrl(genericName)) == Some((genericName, 1))
  {
    UrlRoundTrip(genericName, 1);
  }

  /** The cache key of the identification path: `f"{imprint_number}:{generic_name}"`. */
  function CacheKey(imprintNumber: string, genericName: string): (key: string)
    ensures |key| == |imprintNumber| + 1 + |genericName|
    ensures key[|imprintNumber|] == ':'
    ensures key[..|imprintNumber|] == imprintNumber && key[|imprintNumber| + 1..] == genericName
  {
    imprintNumber + ":" + genericName
  }

  /** Two pairs can share a key when an imprint holds a colon. */
  lemma CacheKeyCollision()
    ensures ("a:b", "c") != ("a", "b:c") && CacheKey("a:b", "c") == CacheKey("a", "b:c")
  {
  }

  /** For imprints without a colon the key determines the pair: the first colon
      of the key ends the imprint. */
  lemma CacheKeyInjective(imprint1: string, generic1: string, imprint2: string, generic2: string)
    requires ':' !in imprint1 && ':' !in imprint2
    requires CacheKey(imprint1, generic1) == CacheKey(imprint2, generic2)
    ensures imprint1 == imprint2 && generic1 == generic2
  {
    var key := CacheKey(imprint1, generic1);
    if |imprint1| != |imprint2| {
      assert false;
    }
    assert imprint1 == key[..|imprint1|] == imprint2;
    assert generic1 == key[|imprint1| + 1..] == generic2;
  }

  /** What openFDA answers: a status code and a body, None when the body is not JSON. */
  datatype HttpResponse = HttpResponse(status: nat, body: Option<Json>)

  /** What `fetch_fda_data` returns: (purpose, data) for a label, (None, None) for no
      results, the four-tuple failure message for a non-200 status, or an exception
      from a body of an unexpected shape. */
  datatype FetchOutcome =
    | Found(purpose: Json, data: Json)
    | NoResults
    | FailureMessage(message: string)
    | FetchRaised

  /** `results[0].get("indications_and_usage", ["Not Available"])[0]`. */
  function Purpose(first: seq<(string, Json)>): (r: Option<Json>)
    ensures Get(first, "indications_and_usage").None? ==> r == Some(JStr(NotAvailable))
    ensures Get(first, "indications_and_usage").Some? ==> r == IndexZero(Get(first, "indications_and_usage").value)
  {
    match Get(first, "indications_and_usage")
    case None => Some(JStr(NotAvailable))
    case Some(v) => IndexZero(v)
  }

  /** `data.get("results", [])`: the default empty list is used exactly when the
      key is missing. */
  function Results(data: seq<(string, Json)>): (r: Json)
    ensures Get(data, "results").Some? ==> r == Get(data, "results").value
    ensures Get(data, "results").None? ==> r == JArr([])
  {
    match Get(data, "results")
    case None => JArr([])
    case Some(v) => v
  }

  /** `fetch_fda_data(url)` once the response is in hand. */
  function FetchFdaData(response: HttpResponse): (r: FetchOutcome)
    ensures r.FailureMessage? <==> response.status != 200
    ensures r.FailureMessage? ==> r.message == FailureLead + Decimal(response.status)
    ensures r.NoResults? <==>
      response.status == 200 && response.body.Some? && response.body.value.JObj? &&
      !Truthy(Results(response.body.value.fields))
    ensures r.Found? ==>
      response.status == 200 && response.body == Some(r.data) && r.data.JObj? &&
      (var results := Results(r.data.fields);
       results.JArr? && results.items != [] && results.items[0].JObj? &&
       Purpose(results.items[0].fields) == Some(r.purpose))
    ensures response.status == 200 && response.body.Some? && response.body.value.JObj? &&
            (var results := Results(response.body.value.fields);
             results.JArr? && results.items != [] && results.items[0].JObj? &&
             Purpose(results.items[0].fields).Some?) ==>
      r == Found(Purpose(Results(response.body.value.fields).items[0].fields).value, response.body.value)
  {
    if response.status != 200 then FailureMessage(FailureLead + Decimal(response.status))
    else
      match response.body
      case None => FetchRaised
      case Some(data) =>
        if !data.JObj? then FetchRaised
        else
          var results := Results(data.fields);
          if !Truthy(results) then NoResults
          else
            match IndexZero(results)
            case Some(JObj(first)) =>
              (match Purpose(first)
               case Some(purpose) => Found(purpose, data)
               case None => FetchRaised)
            case _ => FetchRaised
  }

  /** A label that is found comes with its full document, which is a non-empty dict,
      so the callers' `if data:` always holds for it. */
  lemma FoundDataTruthy(response: HttpResponse)
    requires FetchFdaData(response).Found?
    ensures Truthy(FetchFdaData(response).data)
  {
  }

  /** A label without an indications field gets the "Not Available" purpose. */
  lemma MissingIndicationsNotAvailable(first: seq<(string, Json)>, rest: seq<Json>, meta: seq<(string, Json)>)
    requires Get(first, "indications_and_usage").None?
    ensures var data := JObj([("results", JArr([JObj(first)] + rest))] + meta);
      FetchFdaData(HttpResponse(200, Some(data))) == Found(JStr(NotAvailable), data)
  {
  }

  /** What the correction path returns: (purpose, related name), (None, None), or
      an exception (a non-200 status, whose four-tuple the caller cannot unpack into
      two names, a malformed body, or an unreadable cache entry). */
  datatype Correction = Corrected(purpose: Json, relatedName: string) | NoCorrection | CorrectionRaised

  /** `json.loads(cached_data)['purpose']` on a cache hit of the correction path. */
  function PurposeFromCache(loaded: Option<Json>, relatedName: string): (r: Correction)
    ensures r.Corrected? ==> r.relatedName == relatedName
    ensures r.Corrected? <==> loaded.Some? && loaded.value.JObj? && Get(loaded.value.fields, "purpose").Some?
    ensures r.Corrected? ==> r.purpose == Get(loaded.value.fields, "purpose").value
  {
    match loaded
    case Some(JObj(fields)) =>
      (match Get(fields, "purpose")
       case Some(p) => Corrected(p, relatedName)
       case None => CorrectionRaised)
    case _ => CorrectionRaised
  }

  /** The record the correction path caches under the related name. */
  function CorrectionRecord(purpose: Json, data: Json): (r: Json)
    ensures r.JObj? && |r.fields| == 2
    ensures Get(r.fields, "purpose") == Some(purpose) && Get(r.fields, "data") == Some(data)
  {
    JObj([("purpose", purpose), ("data", data)])
  }

  /** A record written by the correction path reads back as its purpose. */
  lemma CorrectionRecordReadsBack(purpose: Json, data: Json, relatedName: string)
    ensures PurposeFromCache(Some(CorrectionRecord(purpose, data)), relatedName) == Corrected(purpose, relatedName)
  {
  }

  /** `if cached_data:` — a GET that finds a non-empty string. */
  predicate IsHit(cached: Option<string>): (h: bool)
    ensures h <==> cached.Some? && Truthy(JStr(cached.value))
  {
    cached.Some? && cached.value != ""
  }

  /** `search_and_fetch_pill_info(pill_name)`, with the LASA table passed in
      (`load_lasa_data` gives {} when the file is missing). */
  method SearchAndFetchPillInfo(lasa: map<string, string>, store: Store, pillName: string,
                                network: string -> HttpResponse,
                                loads: string -> Option<Json>, dumps: Json -> string)
    returns (r: Correction, requested: seq<string>)
    modifies store
    ensures store.now == old(store.now)
    ensures pillName !in lasa ==>
      r == NoCorrection && requested == [] && store.entries == old(store.entries)
    ensures pillName in lasa && IsHit(old(store.Get(lasa[pillName]))) ==>
      r == PurposeFromCache(loads(old(store.Get(lasa[pillName])).value), lasa[pillName]) &&
      requested == [] && store.entries == old(store.entries)
    ensures pillName in lasa && !IsHit(old(store.Get(lasa[pillName]))) ==>
      var related := lasa[pillName];
      requested == [OpenFdaUrl(related)] &&
      match FetchFdaData(network(OpenFdaUrl(related)))
      case Found(purpose, data) =>
        r == Corrected(purpose, related) &&
        store.entries == old(store.entries)[related := Entry(dumps(CorrectionRecord(purpose, data)), old(store.now) + CacheTtl)]
      case NoResults =>
        r == NoCorrection && store.entries == old(store.entries)
      case _ =>
        r == CorrectionRaised && store.entries == old(store.entries)
  {
    requested := [];
    if pillName !in lasa {
      return NoCorrection, requested;
    }
    var related := lasa[pillName];
    var cached := store.Get(related);
    if IsHit(cached) {
      return PurposeFromCache(loads(cached.value), related), requested;
    }
    var url := OpenFdaUrl(related);
    requested := requested + [url];
    match FetchFdaData(network(url))
    case Found(purpose, data) =>
      // `if data:` holds: see FoundDataTruthy.
      store.SetEx(related, CacheTtl, dumps(CorrectionRecord(purpose, data)));
      r := Corrected(purpose, related);
    case NoResults =>
      r := NoCorrection;
    case _ =>
      r := CorrectionRaised;
  }

  /** What `generic_fetch_summary` returns: the explanation, None (falls off the end
      when the label is not found), or an exception. */
  datatype Summary = Explained(text: string) | NoSummary | SummaryRaised

  function SummaryOf(reply: OpenAiCall.Reply): Summary
  {
    match reply
    case Reply(text) => Explained(text)
    case Raised => SummaryRaised
  }

  /** The explanation of a cache hit: the stored text is parsed, then explained. */
  function ExplainCached(loaded: Option<Json>, repr: Json -> string,
                         complete: seq<OpenAiCall.Message> -> string): (s: Summary)
    ensures !s.NoSummary?
    ensures s.SummaryRaised? <==> loaded.None? || OpenAiCall.FirstResultFields(loaded.value).None?
  {
    match loaded
    case None => SummaryRaised
    case Some(doc) => SummaryOf(OpenAiCall.Explanation(doc, None, repr, complete))
  }

  /** A label that is found can always be explained, but its serialised text never
      can: the miss path of `generic_fetch_summary` raises for every label. */
  lemma SerialisedLabelRaises(response: HttpResponse, dumps: Json -> string, repr: Json -> string,
                              complete: seq<OpenAiCall.Message> -> string)
    requires FetchFdaData(response).Found?
    ensures OpenAiCall.Explanation(FetchFdaData(response).data, None, repr, complete).Reply?
    ensures OpenAiCall.Explanation(JStr(dumps(FetchFdaData(response).data)), None, repr, complete) == OpenAiCall.Raised
  {
    OpenAiCall.StringDocumentHasNoContext(dumps(FetchFdaData(response).data), repr);
  }

  /** `generic_fetch_summary(imprint_number, generic_name)`, as written: it requests
      the label before it looks at the cache, and on a miss it hands the
      serialised text, not the document, to the explainer. */
  method GenericFetchSummary(store: Store, imprintNumber: string, genericName: string,
                             network: string -> HttpResponse,
                             loads: string -> Option<Json>, dumps: Json -> string,
                             repr: Json -> string, complete: seq<OpenAiCall.Message> -> string)
    returns (s: Summary, requested: seq<string>)
    modifies store
    ensures store.now == old(store.now)
    ensures requested == [OpenFdaUrl(genericName)]
    ensures var key := CacheKey(imprintNumber, genericName);
      match FetchFdaData(network(OpenFdaUrl(genericName)))
      case Found(_, data) =>
        if IsHit(old(store.Get(key))) then
          s == ExplainCached(loads(old(store.Get(key)).value), repr, complete) &&
          store.entries == old(store.entries)
        else
          s == SummaryRaised &&
          store.entries == old(store.entries)[key := Entry(dumps(data), old(store.now) + CacheTtl)]
      case NoResults =>
        s == NoSummary && store.entries == old(store.entries)
      case _ =>
        s == SummaryRaised && store.entries == old(store.entries)
  {
    var url := OpenFdaUrl(genericName);
    requested := [url];
    match FetchFdaData(network(url))
    case Found(_, data) =>
      var key := CacheKey(imprintNumber, genericName);
      var cached := store.Get(key);
      if IsHit(cached) {
        var loaded := loads(cached.value);
        if loaded.None? {
          return SummaryRaised, requested;
        }
        var reply := OpenAiCall.ExplainDrugFromJson(loaded.value, None, repr, complete);
        s := SummaryOf(reply);
      } else {
        var text := dumps(data);
        store.SetEx(key, CacheTtl, text);
        OpenAiCall.StringDocumentHasNoContext(text, repr);
        var reply := OpenAiCall.ExplainDrugFromJson(JStr(text), None, repr, complete);
        s := SummaryOf(reply);
      }
    case NoResults =>
      s := NoSummary;
    case _ =>
      s := SummaryRaised;
  }

  /** The identification path as its design describes it: the cache is consulted
      first and a hit makes no request; a miss requests the label, caches its
      serialised text and explains the document itself. */
  method GenericFetchSummaryIntended(store: Store, imprintNumber: string, genericName: string,
                                     network: string -> HttpResponse,
                                     loads: string -> Option<Json>, dumps: Json -> string,
                                     repr: Json -> string, complete: seq<OpenAiCall.Message> -> string)
    returns (s: Summary, requested: seq<string>)
    modifies store
    ensures store.now == old(store.now)
    ensures var key := CacheKey(imprintNumber, genericName);
      if IsHit(old(store.Get(key))) then
        requested == [] && store.entries == old(store.entries) &&
        s == ExplainCached(loads(old(store.Get(key)).value), repr, complete)
      else
        requested == [OpenFdaUrl(genericName)] &&
        match FetchFdaData(network(OpenFdaUrl(genericName)))
        case Found(_, data) =>
          s.Explained? && s == SummaryOf(OpenAiCall.Explanation(data, None, repr, complete)) &&
          store.entries == old(store.entries)[key := Entry(dumps(data), old(store.now) + CacheTtl)]
        case NoResults =>
          s == NoSummary && store.entries == old(store.entries)
        case _ =>
          s == SummaryRaised && store.entries == old(store.entries)
  {
    var key := CacheKey(imprintNumber, genericName);
    var cached := store.Get(key);
    requested := [];
    if IsHit(cached) {
      var loaded := loads(cached.value);
      if loaded.None? {
        return SummaryRaised, requested;
      }
      var reply := OpenAiCall.ExplainDrugFromJson(loaded.value, None, repr, complete);
      return SummaryOf(reply), requested;
    }
    var url := OpenFdaUrl(genericName);
    requested := [url];
    var outcome := FetchFdaData(network(url));
    match outcome
    case Found(_, data) =>
      store.SetEx(key, CacheTtl, dumps(data));
      SerialisedLabelRaises(network(url), dumps, repr, complete);
      var reply := OpenAiCall.ExplainDrugFromJson(data, None, repr, complete);
      s := SummaryOf(reply);
    case NoResults =>
      s := NoSummary;
    case _ =>
      s := SummaryRaised;
  }
}

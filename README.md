# Pill identification pipeline — a Dafny model

This project models the back end of a pill-identification service. A user uploads a photo of a pill. The server has the imprint code on the pill read by an OCR service and looks that imprint up in an online pill catalog. The catalog gives the candidate generic names and their descriptions. For the first name, the server fetches the drug label from the openFDA label API. When the label is already cached in Redis under the imprint and name, it asks a chat model to explain the cached label in plain words. When it is not, the code caches the label for 30 minutes and then fails before any chat call, so a first lookup of a found label ends in a 500 (see Findings). A separate conversation step answers follow-up questions about a cached label.

Modules, one per core file or shared concern:

- `Text`: the string operations the code relies on, written as Python performs them (`str(n)`, `rsplit('.', 1)`, `str.lower()` on ASCII, `sep.join`, `sub in s`).
- `JsonValue`: a decoded JSON document with Python's `dict.get`, truthiness, `[0]` and `str()`.
- `RedisCache`: the key/value store with `GET`/`SETEX` and expiry, as a class over a map and a logical clock.
- `FdaData`: openFDA URL, label fetch, composite cache key, the look-alike/sound-alike (LASA) correction path and the identification path.
- `OpenAiCall`: flattening a label into a grounding context and the prompts sent to the chat model.
- `HtmlParse`: the catalog scraper, as a class whose methods update its fields.
- `AwsRekognition`: the OCR extractor used by the main server.
- `AwsRekognitionRoute`: the stand-alone OCR server and its stricter extractor.
- `Uploads`: the upload guards shared by both servers.
- `Server`: the `/extract_imprint` and `/get_pill_info` routes.
- `UserConversation`: the follow-up question prompt.

The outside world is passed in as function-typed parameters:

- `network`: the openFDA response for a URL.
- `loads` / `dumps`: `json.loads` and `json.dumps`.
- `repr`: `str()` of a non-string value.
- `complete`: the chat completion.
- `summarize`: the summary step that the scraper calls.
- `page`: the catalog page after HTML extraction; None when the request fails.
- `ocr`: the OCR outcome.

Each fetching method returns the list of URLs it requested, so that what reaches the network is part of its contract.

## Model

| member | source | states |
|---|---|---|
| Text.Decimal | fdaDataProcessing.py:18 | the rendering of `limit` is a non-empty string of digits with no leading zero |
| Text.ParseDecimalInverts | fdaDataProcessing.py:18 | reading the decimal rendering back gives the number: the rendering loses nothing |
| Text.LastIndexOf | server.py:26 | `rsplit('.', 1)` splits at the last dot: the index found holds the character, no later index does, and None means the character does not occur |
| Text.Lower | server.py:26 | `.lower()` on ASCII: each letter A-Z becomes its lower-case letter in place and every other character is kept, so the length is kept (Python differs on some non-ASCII letters; see Left out) |
| Text.Join | myHelpers/openaiCall.py:47 | `"\n".join` has the length of the parts plus one separator between each pair of neighbours, and none for an empty list |
| Text.JoinStartsWithFirst | myHelpers/openaiCall.py:47 | the joined text opens with the first part |
| Text.JoinEndsWithLast | myHelpers/openaiCall.py:47 | the joined text ends with the last part, with no trailing separator |
| Text.ContainsFrom | server.py:104 | the left-to-right scan finds `sub` at or after `k` iff it occurs there |
| Text.HasSubstring | server.py:104 | `"imprint_code" in s` on a string body holds iff the key occurs in it as a substring |
| JsonValue.Get | fdaDataProcessing.py:26 | `dict.get` finds a value iff some field has the key, and the value is stored under that key; the same lookup reads the scraper's description dicts |
| JsonValue.Truthy | fdaDataProcessing.py:56 | Python truthiness: a value is false exactly when it is None, False, 0, "", [] or {} |
| JsonValue.IndexZero | fdaDataProcessing.py:28 | `[0]` succeeds exactly on a non-empty list (its first element) or a non-empty string |
| JsonValue.PyStr | myHelpers/openaiCall.py:45 | `str()` of a string is the string itself |
| RedisCache.LiveValue | fdaDataProcessing.py:45 | a GET sees a value iff the key was written and its expiry is still ahead; the value seen is the one written |
| RedisCache.SetExLiveWindow | fdaDataProcessing.py:58 | a value written with SETEX is read back for exactly `ttl` seconds, then not at all |
| RedisCache.SetExOtherKeys | fdaDataProcessing.py:83 | SETEX on one key changes no other key's reading |
| RedisCache.Store.Get | fdaDataProcessing.py:76 | `redis_client.get`: live iff present and unexpired |
| RedisCache.Store.SetEx | fdaDataProcessing.py:58 | `redis_client.setex` overwrites the key with expiry now + ttl, leaves the clock alone and is read back at once |
| RedisCache.Store.Advance | fdaDataProcessing.py:58 | time passes without any write |
| FdaData.OpenFdaUrl | fdaDataProcessing.py:16-19 | the query URL starts with the label endpoint and the generic-name search |
| FdaData.UrlRoundTrip | fdaDataProcessing.py:16-19 | the generic name and the limit can be read back out of the URL built from them |
| FdaData.UrlInjective | fdaDataProcessing.py:16-19 | different (name, limit) pairs never share a URL |
| FdaData.DefaultLimitIsOne | fdaDataProcessing.py:16 | the default limit is 1 |
| FdaData.IsHit | fdaDataProcessing.py:46 | `if cached_data:` holds exactly when GET found a value that is a truthy string |
| FdaData.CorrectionRecord | fdaDataProcessing.py:58 | the cached record is a dict of exactly two entries, `purpose` and `data`, holding the values given |
| FdaData.CacheKey | fdaDataProcessing.py:74 | the key is imprint, a colon at position \|imprint\|, then the generic name |
| FdaData.CacheKeyCollision | fdaDataProcessing.py:74 | two different (imprint, name) pairs share a key when an imprint contains a colon |
| FdaData.CacheKeyInjective | fdaDataProcessing.py:74 | for imprints without a colon, the key determines both imprint and name |
| FdaData.Purpose | fdaDataProcessing.py:28 | a label without `indications_and_usage` has the purpose "Not Available"; otherwise the purpose is element 0 of the field |
| FdaData.Results | fdaDataProcessing.py:26 | `data.get("results", [])` is the stored value when the key is present and the empty list exactly when it is missing |
| FdaData.FetchFdaData | fdaDataProcessing.py:21-33 | a failure message, with the status in decimal, iff the status is not 200; no results iff a 200 dict body has falsy `results`; a found label carries its whole document and the purpose of its first result, and conversely every 200 dict body whose `results` starts with a dict that has a purpose is found, with that purpose and that document |
| FdaData.FoundDataTruthy | fdaDataProcessing.py:56 | a label that is found always passes the callers' `if data:` |
| FdaData.MissingIndicationsNotAvailable | fdaDataProcessing.py:28 | a label whose first result lacks indications is found with the purpose "Not Available" |
| FdaData.PurposeFromCache | fdaDataProcessing.py:46-50 | a cache hit yields a correction iff the entry parses to a dict with a `purpose`, and then it is exactly that stored purpose with the related name; otherwise it raises |
| FdaData.CorrectionRecordReadsBack | fdaDataProcessing.py:58 | the record cached by the correction path reads back as the purpose it was written with |
| FdaData.SearchAndFetchPillInfo | fdaDataProcessing.py:35-65 | a name outside the LASA table returns (None, None) with no request; a cache hit under the related name answers from the cache with no request; a miss requests exactly the related name's URL and, when the label is found, caches the (purpose, data) record for 1800 s; a failure status raises; the clock never moves |
| FdaData.ExplainCached | fdaDataProcessing.py:80 | a cache hit is never answered with None; it raises iff the entry does not parse or the parsed document has no first result to flatten |
| FdaData.SerialisedLabelRaises | fdaDataProcessing.py:83-84 | a found label can always be explained, yet its serialised text, which the miss path passes on, always raises |
| FdaData.GenericFetchSummary | fdaDataProcessing.py:67-87 | as written: the label is requested whatever the cache holds; a hit explains the cached document; a miss caches the serialised label and then raises; no results gives None |
| FdaData.GenericFetchSummaryIntended | fdaDataProcessing.py:67-87 | the cache is read first and a hit makes no request; a miss that finds a label caches it for 1800 s and always returns an explanation |
| OpenAiCall.HasQuery | myHelpers/openaiCall.py:10 | `if user_query:` holds exactly when a query is present and is a truthy string |
| OpenAiCall.UserPrompt | myHelpers/openaiCall.py:10-19 | a non-empty query selects the query prompt and anything else the default one: the prompt has the length of the lead, the purpose and the chosen tail (query and query instruction, or the default question and instruction) |
| OpenAiCall.PromptTail | myHelpers/openaiCall.py:12-17 | what follows the purpose always opens by closing its quote |
| OpenAiCall.PromptEmbedsPurpose | myHelpers/openaiCall.py:10-19 | both prompts open with the purpose verbatim, in single quotes |
| OpenAiCall.QueryPromptEmbedsQuery | myHelpers/openaiCall.py:11-14 | the query prompt carries the query right after the purpose and ends with the stay-within-the-purpose instruction |
| OpenAiCall.DefaultPromptIgnoresQuery | myHelpers/openaiCall.py:15-19 | without a query, or with an empty one, the prompt does not depend on the query |
| OpenAiCall.PromptsDiffer | myHelpers/openaiCall.py:10-19 | the query prompt and the default prompt never coincide |
| OpenAiCall.Messages | myHelpers/openaiCall.py:23-26 | two messages: the fixed system message, then the user prompt |
| OpenAiCall.SendToOpenAi | myHelpers/openaiCall.py:8-28 | the reply is the completion of the system message and the selected user prompt |
| OpenAiCall.FirstResultFields | myHelpers/openaiCall.py:44 | the fields of the first result exist iff the document is a dict whose `results` is a non-empty list starting with a dict, and they are exactly that dict's fields |
| OpenAiCall.InfoLine | myHelpers/openaiCall.py:45 | a line is as long as the key, ": " and the value's text together |
| OpenAiCall.InfoLineLayout | myHelpers/openaiCall.py:45 | a line reads back as the key, then ": ", then `str()` of the value |
| OpenAiCall.InfoLines | myHelpers/openaiCall.py:43-45 | one line per field |
| OpenAiCall.InfoLinesAt | myHelpers/openaiCall.py:43-45 | one "key: value" line per field, in field order |
| OpenAiCall.Context | myHelpers/openaiCall.py:43-47 | there is a context iff the document has a first result to flatten; a first result without fields gives the empty context |
| OpenAiCall.OnlyFirstResultMatters | myHelpers/openaiCall.py:44 | documents whose first results agree give the same context |
| OpenAiCall.ContextShape | myHelpers/openaiCall.py:43-47 | the context has one line per field, newline-separated, opening with the first field's line and ending with the last's |
| OpenAiCall.Explanation | myHelpers/openaiCall.py:31-52 | the explanation raises iff the document has no first result to flatten |
| OpenAiCall.StringDocumentHasNoContext | myHelpers/openaiCall.py:44 | a plain string given as the document raises |
| OpenAiCall.ExplainDrugFromJson | myHelpers/openaiCall.py:31-52 | the loop builds exactly the context lines and the reply is the explanation of the document |
| HtmlParse.Put | scrape/HTMLParse.py:95 | `items[key] = value` adds at most one entry |
| HtmlParse.PutInPlace | scrape/HTMLParse.py:95 | an existing key keeps its place and only its value changes |
| HtmlParse.PutAppends | scrape/HTMLParse.py:95 | a new key goes last, after every existing entry |
| HtmlParse.PutKeys | scrape/HTMLParse.py:95 | assignment introduces no key other than the one assigned |
| HtmlParse.PutLookup | scrape/HTMLParse.py:95 | after `items[key] = value`, key reads as value and every other key reads as before |
| HtmlParse.PutDistinct | scrape/HTMLParse.py:95 | assignment keeps each key at most once |
| HtmlParse.Zip | scrape/HTMLParse.py:92 | `zip` pairs by index and stops at the shorter list |
| HtmlParse.DictOf | scrape/HTMLParse.py:88-95 | the dict built from the pairs has no more entries than there are pairs |
| HtmlParse.DictOfDistinct | scrape/HTMLParse.py:88-95 | the built dict has each key once |
| HtmlParse.DictOfDomain | scrape/HTMLParse.py:88-95 | a term is in the description iff some dt paired with a dd has it (`zip` drops the dts that have no dd) |
| HtmlParse.DictOfLast | scrape/HTMLParse.py:88-95 | a repeated dt keeps the dd of its last paired occurrence; an occurrence past the last dd is dropped by `zip` |
| HtmlParse.Description | scrape/HTMLParse.py:88-95 | a description has each term once, and no more entries than there are dt or dd elements |
| HtmlParse.Descriptions | scrape/HTMLParse.py:86-96 | one description per dl, in page order |
| HtmlParse.HeaderTexts | scrape/HTMLParse.py:75-79 | there are never more imprints than header cards |
| HtmlParse.HeaderTextsAppend | scrape/HTMLParse.py:75-79 | the imprint list keeps page order |
| HtmlParse.HeaderTextsMembership | scrape/HTMLParse.py:75-79 | a text is an imprint iff some header card has it as its h2 |
| HtmlParse.HeaderTextsCount | scrape/HTMLParse.py:75-79 | the imprint list is empty iff no header card has an h2 |
| HtmlParse.Zip3 | scrape/HTMLParse.py:127-129 | the records pair the three lists by index, as many as the shortest list has |
| HtmlParse.SummaryOutcome | scrape/HTMLParse.py:100 | parsing fails iff the summary step raised |
| HtmlParse.SummaryField | scrape/HTMLParse.py:100 | the summary field takes the explanation, becomes None for no summary, and is left unchanged when the step raised |
| HtmlParse.HtmlParser.constructor | scrape/HTMLParse.py:12-23 | the parser holds the imprint, the catalog URL for it, no page and empty results |
| HtmlParse.HtmlParser.FetchHtml | scrape/HTMLParse.py:25-48 | succeeds iff a page arrived; a failed fetch keeps any earlier page |
| HtmlParse.HtmlParser.BuildDescription | scrape/HTMLParse.py:88-95 | the dt/dd loop builds the description of the dl, with distinct keys |
| HtmlParse.HtmlParser.AppendDescriptions | scrape/HTMLParse.py:86-96 | the descriptions of this parse are appended after those of earlier parses |
| HtmlParse.HtmlParser.ParseContent | scrape/HTMLParse.py:50-101 | no page: nothing changes; otherwise imprints, names and appended descriptions come from the page; no names raises before the outputs are set; else imprint and first name are recorded and the outcome follows the summary of (imprint, first name) |
| HtmlParse.HtmlParser.ParsePage | scrape/HTMLParse.py:71-96 | imprints and names are replaced by those of the page, and its descriptions are appended after the earlier ones |
| HtmlParse.HtmlParser.RecordIdentity | scrape/HTMLParse.py:97-100 | the imprint and the first name are recorded, and the summary field and outcome follow the summary of that pair |
| HtmlParse.HtmlParser.Results | scrape/HTMLParse.py:127-135 | the records printed are the three lists paired by index |
| AwsRekognition.LineItems | aws_rekognition/RekognitionTextExtractor.py:41-49 | never more items than detections |
| AwsRekognition.LineItemsAppend | aws_rekognition/RekognitionTextExtractor.py:41-49 | the filter keeps input order |
| AwsRekognition.LineItemsSound | aws_rekognition/RekognitionTextExtractor.py:41-49 | every item is a LINE detection's text, confidence and bounding box |
| AwsRekognition.LineItemsComplete | aws_rekognition/RekognitionTextExtractor.py:41-49 | every LINE detection is kept |
| AwsRekognition.LineItemsEmpty | aws_rekognition/RekognitionTextExtractor.py:41-49 | no items iff no LINE detection |
| AwsRekognition.ExtractText | aws_rekognition/RekognitionTextExtractor.py:17-56 | detections give their LINE items; a client error or a missing file gives the empty list; any other error propagates |
| AwsRekognitionRoute.ExtractTextStrict | aws-rekognition/RekognitionTextExtractor.py:36-55 | detections give their LINE items; every error is raised again |
| AwsRekognitionRoute.ExtractorsAgreeOnSuccess | aws-rekognition/RekognitionTextExtractor.py:36-55 | the two extractors agree except on client errors and missing files, which only the strict one raises |
| AwsRekognitionRoute.ExtractTextRoute | aws-rekognition/RekognitionTextExtractor.py:66-124 | guards first; success is 200 with all LINE items and their count; a client error is a 500 "AWS Service Error"; any other error is a 500 "Internal Server Error" |
| Uploads.AllowedFile | server.py:25-26 | a file name is accepted iff it ends in ".png", ".jpg" or ".jpeg" after a dot, in any letter case (the stand-alone server's copy is the same) |
| Uploads.NoDotInAllowed | server.py:22 | no allowed extension contains a dot |
| Uploads.AllowedAfterDot | server.py:26 | a dot followed by an allowed extension, in any case, is the last dot of the name |
| Uploads.LastDotHasSuffix | server.py:26 | an allowed extension after the last dot puts that dot three or four characters from the end |
| Uploads.SuffixHasLastDot | server.py:26 | a name ending in a dot and an allowed extension has that dot as its last one |
| Uploads.UpperCaseAfterLastDot | server.py:25-26 | only the last dot counts and case is ignored: "a.tar.JPG" passes |
| Uploads.MixedCaseJpeg | server.py:25-26 | "scan.Jpeg" passes |
| Uploads.RefusedExamples | server.py:25-26 | "a.", "png" and "a.png.gif" are refused |
| Uploads.InvalidType | server.py:68-77 | a 400 "Invalid file type" whose details list the three extensions after "Allowed file types are: ", separated by ", " |
| Uploads.UploadGuard | server.py:45-77 | no image: 400 "No image file provided"; empty name: 400 "No selected file"; disallowed type: 400 listing the extensions; it passes iff an image with a non-empty allowed name is present |
| Server.ExtractImprint | server.py:35-98 | guards first; success is 200 with the first item's text iff the response body is an imprint; an empty OCR result is a 500 "list index out of range"; a raised error is a 500 with its message |
| Server.ExtractImprintTakesFirstLine | server.py:80-94 | the imprint returned is the text of the first LINE detection |
| Server.ClientErrorBecomesIndexError | server.py:84-98 | a client error of the OCR service reaches the client as an index error, not as a service error |
| Server.KeyTestOnNonDict | server.py:104 | on a list body the key test is list membership and on a string body a substring test: without the key the answer is a 400, with it the `.get` that follows raises; on a number or a bool the test raises |
| Server.ValidatePillInfo | server.py:103-120 | a missing or falsy body, or a dict without the key, is a 400; a truthy non-dict body goes through the non-dict key test; a value that is not a non-empty list is a 400 "must be a non-empty list"; a first element that is not a dict with `text` is a 400 "Expected a dict"; the request proceeds iff none of these holds, with that text |
| Server.LaterElementsIgnored | server.py:111-122 | only the first element of `imprint_code` is read |
| Server.ListBodyWithKeyRaises | server.py:104-107 | a list body containing "imprint_code" passes the key test and then raises |
| Server.GetPillInfo | server.py:101-131 | validation errors answer 400; an unloadable page answers 200 with empty lists; no names or a raising summary answers 500; else 200 with the page's names and descriptions |
| UserConversation.ContentText | user_conversation.py:18 | `{content}` renders a cached text as itself and a missing entry (None) as "None" |
| UserConversation.StoreContentAndQuestion | user_conversation.py:11-24 | the prompt opens with the content lead, has the length of its four parts (a missing content counts as the text "None"), and ends with the question |
| UserConversation.PromptLayout | user_conversation.py:16-21 | the prompt is the lead, the content, the instruction, then the question, at fixed positions |
| UserConversation.PromptDeterminesParts | user_conversation.py:16-21 | given the question's length, the prompt gives back content and question |
| UserConversation.ShiftAcross | user_conversation.py:16-21 | text that repeats the middle part can move across it without changing the whole |
| UserConversation.PromptAmbiguous | user_conversation.py:16-21 | without it, text repeating the instruction can move between content and question unseen |
| UserConversation.ConversationPrompt | user_conversation.py:41-47 | the conversation reads the label cache under the identification path's composite key |
| UserConversation.AnswerMessages | user_conversation.py:26-34 | two messages: the fixed system message, then the prompt |

## Left out

- Network, Redis, OCR and chat-model I/O are parameters. They are not modelled: timeouts, headers, connection errors other than a missing page, and the model name.
- `json.dumps`/`json.loads` are parameters, and JSON objects are taken to have distinct keys.
- Python's `str()` of a non-string value is the `repr` parameter.
- JSON numbers are integers, and floats are opaque (`AwsRekognition.Opaque`): nothing in the core computes with them.
- Logging and `print` are left out, and so is the console layout of `print_results`. Only the records it pairs are modelled.
- `load_lasa_data` reads a file. `FdaData.SearchAndFetchPillInfo` takes the table it returns, which is empty when the file is missing.
- Flask set-up, `/health`, the maximum upload size, `__main__` blocks, environment checks, the React front end and the `flow2_not_the_pill.py` helper are not part of this model.
- Concurrency is not modelled: each request runs alone against the store.
- HtmlParse.HtmlParser.ParseContent and Server.GetPillInfo take the summary step as a pure `summarize` function. Their contracts therefore say nothing about the openFDA request and the cache write that `generic_fetch_summary` makes (fdaDataProcessing.py:72 and :83). Those effects are stated only by `FdaData.GenericFetchSummary`.
- Design requirements the code does not implement are not modelled either: a per-key exclusion around a cache miss, loading the look-alike table once (the code re-reads it on every call, fdaDataProcessing.py:37), and explicit request timeouts (fdaDataProcessing.py:22 passes none).
- `Server.GetPillInfo`: the parser is given `str()` of the detected text, which is what the f-strings building its URL and cache key produce. A non-string `text` is never rejected.
- `Server.GetPillInfo`: an exception that escapes a Flask handler is shown as a 500 with a fixed message, rather than Flask's HTML error page.
- `UserConversation.StoreContentAndQuestion` builds a `question:` key that it never uses. Despite its name, it stores nothing.
- `Uploads.InvalidType`: Python does not fix the order in which the extension set is listed. The caller supplies the order.
- Code and design disagree; the model follows the code. Among the places the model covers:
  - The design treats the `imprint:generic` key as identifying a pill. It is ambiguous when an imprint contains a colon (`FdaData.CacheKeyCollision`).
  - The design reads the cache before fetching. The identification path fetches first (see Findings).
  - The design explains the label document on a miss. The code passes the serialised text (`json.dumps(data)`, fdaDataProcessing.py:84), and explaining it raises (`FdaData.SerialisedLabelRaises`, see Findings).
  - The design treats an unreadable cache entry as a miss. The code raises in `json.loads` (fdaDataProcessing.py:48 and :80); `FdaData.PurposeFromCache` and `FdaData.ExplainCached` raise when `loads` gives None.
  - The design has the name resolver report "not found" when the catalog lists no name. `parse_content` raises IndexError at `self.pill_names[0]` (scrape/HTMLParse.py:97-99); `HtmlParse.HtmlParser.ParseContent` ends with `NoNames` and `Server.GetPillInfo` answers 500.
  - The design has the look-alike correction fetch the related drug's label. The correction path answers from the cache when the related name is cached (fdaDataProcessing.py:45-50) and makes no request (`FdaData.SearchAndFetchPillInfo`).
- Text.Lower: only ASCII letters are lower-cased. Python's `str.lower()` also lower-cases non-ASCII letters, and can change the length: "İ" (U+0130) becomes two characters, so "keeps the length" is a property of the model, not of Python. This cannot change `allowed_file`'s answer. The only non-ASCII characters that lower-case to ASCII letters are U+0130 (to "i" plus a combining dot) and the Kelvin sign U+212A (to "k"), and neither "i" nor "k" occurs in "png", "jpg" or "jpeg".

## Findings

| source | as written | input that shows it | evidently intended | confidence | as-written member | corrected member |
|---|---|---|---|---|---|---|
| fdaDataProcessing.py:84 | on a cache miss the label is passed to the explainer as `json.dumps(data)`, a string, so `fda_json["results"]` raises TypeError | any generic name whose label is found and not yet cached under `imprint:generic` | explain the label document itself | high (not executed) | FdaData.SerialisedLabelRaises | FdaData.GenericFetchSummaryIntended |
| fdaDataProcessing.py:68-77 | the label is requested from openFDA before the cache is read, so a cached label never saves the request | a second identification of the same pill within 30 minutes | read the cache first and request only on a miss | medium (not executed) | FdaData.GenericFetchSummary | FdaData.GenericFetchSummaryIntended |

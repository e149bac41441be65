/** The stand-alone OCR server (aws-rekognition/): an extractor that re-raises every
    error, and the `/extract-text` route that reports all LINE items. */
module AwsRekognitionRoute {
  import opened Text
  import opened Uploads
  import opened AwsRekognition

  /** `RekognitionTextExtractor.extract_text` of this server: the same LINE filter,
      and every exception is logged and raised again. */
  function ExtractTextStrict(outcome: DetectOutcome): (r: Extracted)
    ensures outcome.Detected? ==> r == Items(LineItems(outcome.detections))
    ensures outcome.Failed? ==> r == Thrown(outcome.error)
  {
    match outcome
    case Detected(detections) => Items(LineItems(detections))
    case Failed(error) => Thrown(error)
  }

  /** The two extractors agree on every successful detection and differ only in
      what a client error or a missing file becomes. */
  lemma ExtractorsAgreeOnSuccess(outcome: DetectOutcome)
    ensures outcome.Detected? || outcome.error.OtherError? ==>
      ExtractTextStrict(outcome) == ExtractText(outcome)
    ensures outcome.Failed? && !outcome.error.OtherError? ==>
      ExtractTextStrict(outcome).Thrown? && ExtractText(outcome) == Items([])
  {
  }

  /** `/extract-text`: the upload guards, then every LINE item with its count; a
      client error is a 500 "AWS Service Error", any other a 500 "Internal Server Error". */
  function ExtractTextRoute(image: Option<Upload>, order: seq<string>, ocr: DetectOutcome): (r: Response)
    requires IsExtensionOrder(order)
    ensures UploadGuard(image, order).Some? ==> r == UploadGuard(image, order).value
    ensures UploadGuard(image, order).None? && ocr.Detected? ==>
      r == Response(200, TextBody("success", |LineItems(ocr.detections)|, LineItems(ocr.detections)))
    ensures UploadGuard(image, order).None? && ocr.Failed? && ocr.error.ClientError? ==>
      r == Response(500, ErrorBody("AWS Service Error", ocr.error.message))
    ensures UploadGuard(image, order).None? && ocr.Failed? && !ocr.error.ClientError? ==>
      r == Response(500, ErrorBody("Internal Server Error", ocr.error.message))
    ensures r.body.TextBody? ==> r.code == 200 && r.body.detectedItems == |r.body.results|
  {
    match UploadGuard(image, order)
    case Some(rejection) => rejection
    case None =>
      match ExtractTextStrict(ocr)
      case Items(results) => Response(200, TextBody("success", |results|, results))
      case Thrown(ClientError(message)) => Response(500, ErrorBody("AWS Service Error", message))
      case Thrown(error) => Response(500, ErrorBody("Internal Server Error", error.message))
  }
}

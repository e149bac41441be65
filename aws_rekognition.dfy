/** The text extractor the server uses (aws_rekognition/): the OCR detections are
    filtered down to whole lines and projected onto (text, confidence, position).
    The call to the OCR service is the caller-supplied outcome; confidence and
    bounding boxes are floats and dicts the pipeline only copies, so they stay
    uninterpreted. */
module AwsRekognition {

  /** A value the pipeline copies without looking inside (a float or a box). */
  datatype Opaque = Opaque(id: nat)

  datatype Detection = Detection(detectionType: string, detectedText: string, confidence: Opaque, boundingBox: Opaque)

  datatype TextItem = TextItem(text: string, confidence: Opaque, position: Opaque)

  datatype DetectError = ClientError(message: string) | FileNotFound(message: string) | OtherError(message: string)

  /** What `detect_text` gave: the detections, or the exception it raised. */
  datatype DetectOutcome = Detected(detections: seq<Detection>) | Failed(error: DetectError)

  /** What `extract_text` gives: the items, or an exception that leaves it. */
  datatype Extracted = Items(items: seq<TextItem>) | Thrown(error: DetectError)

  predicate IsLine(d: Detection) { d.detectionType == "LINE" }

  function Project(d: Detection): TextItem
  {
    TextItem(d.detectedText, d.confidence, d.boundingBox)
  }

  /** The list comprehension of `extract_text`: the LINE detections, projected, in order. */
  function LineItems(detections: seq<Detection>): (r: seq<TextItem>)
    ensures |r| <= |detections|
    decreases |detections|
  {
    if detections == [] then []
    else if IsLine(detections[0]) then [Project(detections[0])] + LineItems(detections[1..])
    else LineItems(detections[1..])
  }

  /** Filtering commutes with concatenation, so the output keeps the input order. */
  lemma {:induction false} LineItemsAppend(a: seq<Detection>, b: seq<Detection>)
    ensures LineItems(a + b) == LineItems(a) + LineItems(b)
    decreases |a|
  {
    if a == [] {
      assert a + b == b;
    } else {
      assert (a + b)[0] == a[0];
      assert (a + b)[1..] == a[1..] + b;
      LineItemsAppend(a[1..], b);
    }
  }

  /** Every item comes from a LINE detection, with text, confidence and position
      copied from DetectedText, Confidence and Geometry.BoundingBox. */
  lemma {:induction false} LineItemsSound(detections: seq<Detection>, k: nat)
    requires k < |LineItems(detections)|
    ensures exists i :: (0 <= i < |detections| && IsLine(detections[i]) &&
      LineItems(detections)[k] == TextItem(detections[i].detectedText, detections[i].confidence, detections[i].boundingBox))
    decreases |detections|
  {
    var tail := detections[1..];
    if IsLine(detections[0]) && k == 0 {
    } else {
      var k' := if IsLine(detections[0]) then k - 1 else k;
      LineItemsSound(tail, k');
      var i :| 0 <= i < |tail| && IsLine(tail[i]) &&
        LineItems(tail)[k'] == TextItem(tail[i].detectedText, tail[i].confidence, tail[i].boundingBox);
      assert detections[i + 1] == tail[i];
    }
  }

  /** Every LINE detection is kept. */
  lemma {:induction false} LineItemsComplete(detections: seq<Detection>, i: nat)
    requires i < |detections| && IsLine(detections[i])
    ensures Project(detections[i]) in LineItems(detections)
    decreases |detections|
  {
    if i > 0 {
      LineItemsComplete(detections[1..], i - 1);
    }
  }

  /** The output is empty exactly when there is no LINE detection. */
  lemma {:induction false} LineItemsEmpty(detections: seq<Detection>)
    ensures LineItems(detections) == [] <==> forall i :: 0 <= i < |detections| ==> !IsLine(detections[i])
    decreases |detections|
  {
    if detections != [] {
      LineItemsEmpty(detections[1..]);
      if LineItems(detections) == [] {
        forall i | 0 <= i < |detections| ensures !IsLine(detections[i]) {
          if i > 0 {
            assert detections[1..][i - 1] == detections[i];
          }
        }
      } else if !IsLine(detections[0]) {
        var i :| 0 <= i < |detections[1..]| && IsLine(detections[1..][i]);
        assert IsLine(detections[i + 1]);
      }
    }
  }

  /** `RekognitionTextExtractor.extract_text`: a client error or a missing file
      gives the empty list; any other exception leaves the method. */
  function ExtractText(outcome: DetectOutcome): (r: Extracted)
    ensures outcome.Detected? ==> r == Items(LineItems(outcome.detections))
    ensures outcome.Failed? && (outcome.error.ClientError? || outcome.error.FileNotFound?) ==> r == Items([])
    ensures outcome.Failed? && outcome.error.OtherError? ==> r == Thrown(outcome.error)
  {
    match outcome
    case Detected(detections) => Items(LineItems(detections))
    case Failed(OtherError(message)) => Thrown(OtherError(message))
    case Failed(_) => Items([])
  }
}

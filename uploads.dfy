/** The image-upload checks both Flask servers run before OCR: `allowed_file` and the
    guard sequence (image present, a file selected, an allowed extension), and the
    JSON responses the routes return. */
module Uploads {
  import opened Text
  import AwsRekognition

  const AllowedExtensions: set<string> := {"png", "jpg", "jpeg"}

  /** `allowed_file`: the text after the last dot, lower-cased, is an allowed
      extension; that is, the name ends in one of them after a dot. */
  function AllowedFile(filename: string): (r: bool)
    ensures r <==> EndsWithAllowedExtension(filename)
  {
    match LastIndexOf(filename, '.')
    case None =>
      NoDotNoSuffix(filename);
      false
    case Some(i) =>
      if Lower(filename[i + 1..]) in AllowedExtensions then
        LastDotHasSuffix(filename, i);
        true
      else
        OtherAfterLastDot(filename, i);
        false
  }

  /** An independent statement of the check: the name ends in ".png" or ".jpg"
      (a dot and three characters) or ".jpeg" (a dot and four), in any case. */
  predicate EndsWithAllowedExtension(filename: string)
  {
    var n := |filename|;
    (n >= 4 && filename[n - 4] == '.' && Lower(filename[n - 3..]) in {"png", "jpg"}) ||
    (n >= 5 && filename[n - 5] == '.' && Lower(filename[n - 4..]) == "jpeg")
  }

  lemma NoDotInAllowed(ext: string)
    requires Lower(ext) in AllowedExtensions
    ensures forall j :: 0 <= j < |ext| ==> ext[j] != '.'
  {
    var e := Lower(ext);
    assert forall j :: 0 <= j < |e| ==> e[j] != '.';
    forall j | 0 <= j < |ext| ensures ext[j] != '.' {
      assert e[j] == LowerChar(ext[j]);
    }
  }

  /** A dot followed by an allowed extension is the last dot of the name. */
  lemma AllowedAfterDot(filename: string, i: nat)
    requires i < |filename| && filename[i] == '.'
    requires Lower(filename[i + 1..]) in AllowedExtensions
    ensures LastIndexOf(filename, '.') == Some(i)
  {
    var ext := filename[i + 1..];
    NoDotInAllowed(ext);
    forall j | i < j < |filename| ensures filename[j] != '.' {
      assert filename[j] == ext[j - (i + 1)];
    }
    LastDotAt(filename, i);
  }

  /** A last dot followed by an allowed extension sits three or four characters
      from the end. */
  lemma LastDotHasSuffix(filename: string, i: nat)
    requires LastIndexOf(filename, '.') == Some(i)
    requires Lower(filename[i + 1..]) in AllowedExtensions
    ensures EndsWithAllowedExtension(filename)
  {
    var n := |filename|;
    var ext := filename[i + 1..];
    var e := Lower(ext);
    assert |e| == |ext|;
    if e == "jpeg" {
      assert i == n - 5;
      assert filename[n - 4..] == ext;
    } else {
      assert e in {"png", "jpg"};
      assert i == n - 4;
      assert filename[n - 3..] == ext;
    }
  }

  /** Conversely, a name ending in an allowed extension after a dot has that dot as
      its last one. */
  lemma SuffixHasLastDot(filename: string)
    ensures EndsWithAllowedExtension(filename) ==>
      LastIndexOf(filename, '.').Some? &&
      Lower(filename[LastIndexOf(filename, '.').value + 1..]) in AllowedExtensions
  {
    var n := |filename|;
    if n >= 4 && filename[n - 4] == '.' && Lower(filename[n - 3..]) in {"png", "jpg"} {
      assert filename[n - 3..] == filename[(n - 4) + 1..];
      AllowedAfterDot(filename, n - 4);
    } else if n >= 5 && filename[n - 5] == '.' && Lower(filename[n - 4..]) == "jpeg" {
      assert filename[n - 4..] == filename[(n - 5) + 1..];
      AllowedAfterDot(filename, n - 5);
    }
  }

  /** A name without a dot has no extension. */
  lemma NoDotNoSuffix(filename: string)
    requires LastIndexOf(filename, '.').None?
    ensures !EndsWithAllowedExtension(filename)
  {
    var n := |filename|;
    assert n >= 4 ==> filename[n - 4] != '.';
    assert n >= 5 ==> filename[n - 5] != '.';
  }

  /** Anything but an allowed extension after the last dot leaves the name
      without an allowed suffix. */
  lemma OtherAfterLastDot(filename: string, i: nat)
    requires LastIndexOf(filename, '.') == Some(i)
    requires Lower(filename[i + 1..]) !in AllowedExtensions
    ensures !EndsWithAllowedExtension(filename)
  {
    if EndsWithAllowedExtension(filename) {
      SuffixHasLastDot(filename);
      assert false;
    }
  }

  lemma LastDotAt(s: string, i: nat)
    requires i < |s| && s[i] == '.'
    requires forall j :: i < j < |s| ==> s[j] != '.'
    ensures LastIndexOf(s, '.') == Some(i)
  {
  }

  /** Only the last dot counts and the case of the extension does not matter. */
  lemma UpperCaseAfterLastDot()
    ensures AllowedFile("a.tar.JPG")
  {
    var s := "a.tar.JPG";
    assert s[5] == '.' && s[6] == 'J' && s[7] == 'P' && s[8] == 'G';
    LastDotAt(s, 5);
    assert s[6..] == "JPG";
    assert Lower("JPG") == "jpg";
  }

  lemma MixedCaseJpeg()
    ensures AllowedFile("scan.Jpeg")
  {
    var s := "scan.Jpeg";
    assert s[4] == '.' && s[5] == 'J' && s[6] == 'p' && s[7] == 'e' && s[8] == 'g';
    LastDotAt(s, 4);
    assert s[5..] == "Jpeg";
    assert Lower("Jpeg") == "jpeg";
  }

  /** A name without an extension after its last dot, or without a dot, or with an
      allowed extension before another one, is refused. */
  lemma RefusedExamples()
    ensures !AllowedFile("a.")
    ensures !AllowedFile("png")
    ensures !AllowedFile("a.png.gif")
  {
    assert LastIndexOf("a.", '.') == Some(1);
    assert "a."[2..] == "";
    assert LastIndexOf("png", '.') == None;
    LastDotAt("a.png.gif", 5);
    assert "a.png.gif"[6..] == "gif";
    assert Lower("gif") == "gif";
  }

  /** The part of a multipart request the routes read: the file under "image". */
  datatype Upload = Upload(filename: string)

  datatype Body =
    | ErrorBody(error: string, details: string)
    | ImprintBody(imprintCode: string)
    | TextBody(status: string, detectedItems: nat, results: seq<AwsRekognition.TextItem>)

  datatype Response = Response(code: nat, body: Body)

  /** `', '.join(ALLOWED_EXTENSIONS)` visits the set in an order Python does not fix:
      the caller supplies the order, which lists each extension once. */
  predicate IsExtensionOrder(order: seq<string>)
  {
    |order| == 3 && order[0] in AllowedExtensions && order[1] in AllowedExtensions &&
    order[2] in AllowedExtensions && order[0] != order[1] && order[1] != order[2] && order[0] != order[2]
  }

  const NoImage := Response(400, ErrorBody("No image file provided", "Request must include an image file"))
  const NoSelection := Response(400, ErrorBody("No selected file", "A file must be selected"))

  /** The third guard's answer: 400 naming the allowed extensions, comma-separated. */
  function InvalidType(order: seq<string>): (r: Response)
    ensures r.code == 400 && r.body.ErrorBody? && r.body.error == "Invalid file type"
    ensures |order| == 3 ==>
      r.body.details == "Allowed file types are: " + order[0] + ", " + order[1] + ", " + order[2]
  {
    assert |order| == 3 ==> Join(order, ", ") == order[0] + ", " + order[1] + ", " + order[2] by {
      if |order| == 3 {
        var two := order[..2];
        assert two[..1] == [order[0]];
        assert Join(two[..1], ", ") == order[0];
        assert Join(two, ", ") == order[0] + ", " + order[1];
      }
    }
    Response(400, ErrorBody("Invalid file type", "Allowed file types are: " + Join(order, ", ")))
  }

  /** The guards of the upload routes, in order; None when the upload passes them all. */
  function UploadGuard(image: Option<Upload>, order: seq<string>): (r: Option<Response>)
    requires IsExtensionOrder(order)
    ensures r.None? <==> image.Some? && image.value.filename != "" && AllowedFile(image.value.filename)
    ensures r.Some? ==> r.value.code == 400
    ensures image.None? ==> r == Some(NoImage)
    ensures image.Some? && image.value.filename == "" ==> r == Some(NoSelection)
    ensures image.Some? && image.value.filename != "" && !AllowedFile(image.value.filename) ==>
      r == Some(InvalidType(order))
  {
    if image.None? then Some(NoImage)
    else if image.value.filename == "" then Some(NoSelection)
    else if !AllowedFile(image.value.filename) then Some(InvalidType(order))
    else None
  }
}

/**
 * The URL-based back end: images are downloaded to temporary files, each
 * side is scanned by its own loop, and the endpoint turns the result into a
 * response. Downloads and inference are outside the model: whether each
 * download succeeded and what each inference produced are parameters.
 */
module UrlDetector {
  import opened Wrappers
  import opened Text
  import opened Detections

  /** The image path handed to `detect_cards` for one side. */
  datatype SidePath =
    | NoPath                                 // None or empty
    | MissingFile                            // a path with no file behind it
    | Present(inference: InferenceOutcome)   // an existing file, and what inference made of it

  /** A box the side's loop keeps as a card match. */
  predicate Keeps(d: Detection, threshold: real, side: Side)
  {
    d.confidence >= threshold && d.className == ExpectedLabel(side)
  }

  /** The boxes a side's loop keeps as card matches, in box order. */
  function Matched(ds: seq<Detection>, threshold: real, side: Side): seq<Detection>
  {
    if |ds| == 0 then []
    else
      var init := Matched(ds[..|ds| - 1], threshold, side);
      var last := ds[|ds| - 1];
      if Keeps(last, threshold, side) then init + [last] else init
  }

  /**
   * `Matched` holds exactly the side's boxes at or above the threshold, so
   * it is empty iff there is none, and no printed-copy box is ever a card.
   */
  lemma {:induction false} MatchedMembers(ds: seq<Detection>, threshold: real, side: Side)
    ensures forall d :: d in Matched(ds, threshold, side) <==> d in ds && Keeps(d, threshold, side)
    ensures forall d :: d in Matched(ds, threshold, side) ==> d.className != PrintLabel
  {
    if |ds| > 0 {
      var init := ds[..|ds| - 1];
      MatchedMembers(init, threshold, side);
      assert ds == init + [ds[|ds| - 1]];
    }
  }

  /** The last element of `Matched` is the last box in `ds` that the loop keeps. */
  lemma {:induction false} MatchedLastIsLastKept(ds: seq<Detection>, threshold: real, side: Side)
    requires |Matched(ds, threshold, side)| > 0
    ensures var m := Matched(ds, threshold, side);
      exists i :: 0 <= i < |ds| && ds[i] == m[|m| - 1] && Keeps(ds[i], threshold, side) &&
        forall j :: i < j < |ds| ==> !Keeps(ds[j], threshold, side)
  {
    var n := |ds|;
    if Keeps(ds[n - 1], threshold, side) {
      assert ds[n - 1] == Matched(ds, threshold, side)[|Matched(ds, threshold, side)| - 1];
    } else {
      var init := ds[..n - 1];
      MatchedLastIsLastKept(init, threshold, side);
      var m := Matched(init, threshold, side);
      var i :| 0 <= i < n - 1 && init[i] == m[|m| - 1] && Keeps(init[i], threshold, side) &&
               forall j :: i < j < n - 1 ==> !Keeps(init[j], threshold, side);
      assert ds[i] == init[i];
      assert forall j :: i < j < n ==> !Keeps(ds[j], threshold, side) by {
        forall j | i < j < n ensures !Keeps(ds[j], threshold, side) {
          if j < n - 1 { assert ds[j] == init[j]; }
        }
      }
    }
  }

  /** A printed-copy box at or above the threshold. */
  predicate HasFraud(ds: seq<Detection>, threshold: real)
  {
    exists i :: 0 <= i < |ds| && ds[i].className == PrintLabel && ds[i].confidence >= threshold
  }

  function MissingPathError(side: Side): string
  {
    match side
    case Front => "Front image not found at path"
    case Back => "Back image not found at path"
  }

  /** One side of the result dict of `detect_cards`. */
  datatype SideScan = SideScan(detected: bool, confidence: real, printDetected: bool, details: seq<DetailEntry>)

  /** The detections a side's inference produced; none without a successful inference. */
  function PathDetections(path: SidePath, classes: map<int, string>): seq<Detection>
  {
    if path.Present? && path.inference.Output? then Named(path.inference.boxes, classes) else []
  }

  /** Whether a side raises the fraud flag. */
  predicate PathFraud(path: SidePath, classes: map<int, string>, threshold: real)
  {
    HasFraud(PathDetections(path, classes), threshold)
  }

  /**
   * The detected flag, confidence and details `detect_cards` reports for a
   * side: detected iff some box of the side's label is at or above the
   * threshold, the confidence of the last such box, the matched boxes as
   * details, and a single error entry for a missing file or a failed inference.
   */
  predicate SideFields(detected: bool, confidence: real, details: seq<DetailEntry>,
                       side: Side, path: SidePath, classes: map<int, string>, threshold: real)
  {
    match path
    case NoPath => !detected && confidence == 0.0 && details == []
    case MissingFile => !detected && confidence == 0.0 && details == [Failure(MissingPathError(side))]
    case Present(Raised(message)) => !detected && confidence == 0.0 && details == [Failure(message)]
    case Present(Output(boxes)) =>
      var m := Matched(Named(boxes, classes), threshold, side);
      && details == AsDetails(m)
      && detected == (|m| > 0)
      && confidence == LastConfidence(m)
  }

  /**
   * One side of `detect_cards`: boxes below the threshold are skipped; a
   * printed-copy box sets the fraud flag and is not a card; a box with the
   * side's label marks the side detected, overwrites its confidence and is
   * logged.
   */
  method ScanSide(side: Side, path: SidePath, classes: map<int, string>, threshold: real)
    returns (s: SideScan)
    ensures SideFields(s.detected, s.confidence, s.details, side, path, classes, threshold)
    ensures s.printDetected <==> PathFraud(path, classes, threshold)
  {
    match path {
      case NoPath =>
        s := SideScan(false, 0.0, false, []);
      case MissingFile =>
        s := SideScan(false, 0.0, false, [Failure(MissingPathError(side))]);
      case Present(Raised(message)) =>
        s := SideScan(false, 0.0, false, [Failure(message)]);
      case Present(Output(boxes)) =>
        var detected, confidence, printDetected, details := ScanBoxes(side, boxes, classes, threshold);
        s := SideScan(detected, confidence, printDetected, details);
    }
  }

  /** The confidence a side reports: that of its last match, or 0.0. */
  function LastConfidence(m: seq<Detection>): real
  {
    if |m| > 0 then m[|m| - 1].confidence else 0.0
  }

  /** What one more box adds to the matches and to the fraud flag. */
  lemma ScanStep(ds: seq<Detection>, i: nat, threshold: real, side: Side)
    requires i < |ds|
    ensures Matched(ds[..i + 1], threshold, side) ==
      if Keeps(ds[i], threshold, side) then Matched(ds[..i], threshold, side) + [ds[i]]
      else Matched(ds[..i], threshold, side)
    ensures HasFraud(ds[..i + 1], threshold) <==>
      HasFraud(ds[..i], threshold) || (ds[i].className == PrintLabel && ds[i].confidence >= threshold)
  {
    assert ds[..i + 1][..i] == ds[..i];
    if HasFraud(ds[..i + 1], threshold) && !(ds[i].className == PrintLabel && ds[i].confidence >= threshold) {
      var k :| 0 <= k < i + 1 && ds[..i + 1][k].className == PrintLabel && ds[..i + 1][k].confidence >= threshold;
      assert ds[..i][k] == ds[k];
    }
  }

  /** Appending a match appends its detail entry. */
  lemma DetailsAppend(m: seq<Detection>, d: Detection)
    ensures AsDetails(m + [d]) == AsDetails(m) + [Found(d.className, d.confidence)]
  {
  }

  /** The `for box in ...boxes` loop of one side. */
  method ScanBoxes(side: Side, boxes: seq<RawBox>, classes: map<int, string>, threshold: real)
    returns (detected: bool, confidence: real, printDetected: bool, details: seq<DetailEntry>)
    ensures var m := Matched(Named(boxes, classes), threshold, side);
      && details == AsDetails(m)
      && detected == (|m| > 0)
      && confidence == LastConfidence(m)
    ensures printDetected <==> HasFraud(Named(boxes, classes), threshold)
  {
    ghost var ds := Named(boxes, classes);
    detected, confidence, printDetected, details := false, 0.0, false, [];
    var i := 0;
    while i < |boxes|
      invariant 0 <= i <= |boxes|
      invariant details == AsDetails(Matched(ds[..i], threshold, side))
      invariant detected == (|Matched(ds[..i], threshold, side)| > 0)
      invariant confidence == LastConfidence(Matched(ds[..i], threshold, side))
      invariant printDetected <==> HasFraud(ds[..i], threshold)
    {
      ghost var before := Matched(ds[..i], threshold, side);
      ScanStep(ds, i, threshold, side);
      var c := boxes[i].confidence;
      if c < threshold {
        i := i + 1;
        continue;
      }
      var name := ClassName(classes, boxes[i].classId);
      if name == PrintLabel {
        printDetected := true;
      } else if name == ExpectedLabel(side) {
        detected, confidence := true, c;
        details := details + [Found(name, c)];
        DetailsAppend(before, ds[i]);
      }
      i := i + 1;
    }
    assert ds[..i] == ds;
  }

  /** The dict `detect_cards` returns. */
  datatype CardsResult = CardsResult(
    frontDetected: bool,
    backDetected: bool,
    frontConfidence: real,
    backConfidence: real,
    printDetected: bool,
    frontDetails: seq<DetailEntry>,
    backDetails: seq<DetailEntry>)

  /** `detect_cards`: the two sides scanned independently; either side's fraud flag is kept. */
  method DetectCards(front: SidePath, back: SidePath, classes: map<int, string>, threshold: real)
    returns (r: CardsResult)
    ensures SideFields(r.frontDetected, r.frontConfidence, r.frontDetails, Front, front, classes, threshold)
    ensures SideFields(r.backDetected, r.backConfidence, r.backDetails, Back, back, classes, threshold)
    ensures r.printDetected <==> PathFraud(front, classes, threshold) || PathFraud(back, classes, threshold)
  {
    var f := ScanSide(Front, front, classes, threshold);
    var b := ScanSide(Back, back, classes, threshold);
    r := CardsResult(f.detected, b.detected, f.confidence, b.confidence,
                     f.printDetected || b.printDetected, f.details, b.details);
  }

  /** A request to `POST /detect`: up to two image URLs or local paths. */
  datatype Request = Request(
    userId: string,
    passportFirst: Option<string>,
    passportOld: Option<string>,
    confidenceThreshold: real)

  /** The `data` object of a completed detection. */
  datatype ResponseData = ResponseData(
    userId: string,
    frontDetected: bool,
    backDetected: bool,
    frontConfidence: real,
    backConfidence: real,
    bothDetected: bool,
    frontDetails: seq<DetailEntry>,
    backDetails: seq<DetailEntry>)

  /** The endpoint's JSON responses. */
  datatype Response =
    | BadRequest(message: string)                 // 400, no URL supplied
    | InternalError(error: string)                // 500, with the exception text
    | SecurityViolation                           // 400, "Print Aadhaar detected - security violation"
    | Completed(detected: bool, message: string, data: ResponseData)   // 200

  const NoUrlMessage: string := "At least one image URL (passport_first or passport_old) is required."

  /** Every supplied URL was downloaded. */
  predicate DownloadsOk(req: Request, frontFetched: bool, backFetched: bool)
  {
    (Supplied(req.passportFirst) ==> frontFetched) && (Supplied(req.passportOld) ==> backFetched)
  }

  /** The path handed to `detect_cards` for a side: the downloaded file, or None. */
  function DownloadedPath(url: Option<string>, fetched: bool, inference: InferenceOutcome): SidePath
  {
    if Supplied(url) && fetched then Present(inference) else NoPath
  }

  /**
   * `detect_aadhaar_cards`: no URL is a 400; a supplied URL that fails to
   * download is a 500 (front tried first); a fraud flag on either side is a
   * 400 whatever was detected; otherwise a 200 whose message follows the
   * ladder and whose `both_detected` needs both sides detected and downloaded.
   */
  method DetectAadhaarCards(req: Request, frontFetched: bool, backFetched: bool,
                            frontInference: InferenceOutcome, backInference: InferenceOutcome,
                            classes: map<int, string>)
    returns (resp: Response)
    ensures !Supplied(req.passportFirst) && !Supplied(req.passportOld) ==> resp == BadRequest(NoUrlMessage)
    ensures (Supplied(req.passportFirst) || Supplied(req.passportOld)) && !DownloadsOk(req, frontFetched, backFetched) ==>
      resp == InternalError(
        if Supplied(req.passportFirst) && !frontFetched
        then "Failed to download front image from " + req.passportFirst.value
        else "Failed to download back image from " + req.passportOld.value)
    ensures resp == SecurityViolation <==>
      && (Supplied(req.passportFirst) || Supplied(req.passportOld))
      && DownloadsOk(req, frontFetched, backFetched)
      && (PathFraud(DownloadedPath(req.passportFirst, frontFetched, frontInference), classes, req.confidenceThreshold) ||
          PathFraud(DownloadedPath(req.passportOld, backFetched, backInference), classes, req.confidenceThreshold))
    ensures resp.BadRequest? <==> !Supplied(req.passportFirst) && !Supplied(req.passportOld)
    ensures resp.Completed? <==>
      && (Supplied(req.passportFirst) || Supplied(req.passportOld))
      && DownloadsOk(req, frontFetched, backFetched)
      && !PathFraud(DownloadedPath(req.passportFirst, frontFetched, frontInference), classes, req.confidenceThreshold)
      && !PathFraud(DownloadedPath(req.passportOld, backFetched, backInference), classes, req.confidenceThreshold)
    ensures resp.Completed? ==>
      var d := resp.data;
      && d.userId == req.userId
      && SideFields(d.frontDetected, d.frontConfidence, d.frontDetails, Front,
                    DownloadedPath(req.passportFirst, frontFetched, frontInference), classes, req.confidenceThreshold)
      && SideFields(d.backDetected, d.backConfidence, d.backDetails, Back,
                    DownloadedPath(req.passportOld, backFetched, backInference), classes, req.confidenceThreshold)
      && d.bothDetected == (d.frontDetected && d.backDetected && Supplied(req.passportFirst) && Supplied(req.passportOld))
      && resp.detected == (d.frontDetected || d.backDetected)
      && resp.message == ResponseMessage(Supplied(req.passportFirst) && Supplied(req.passportOld),
                                         Supplied(req.passportFirst), d.frontDetected,
                                         Supplied(req.passportOld), d.backDetected)
  {
    if !Supplied(req.passportFirst) && !Supplied(req.passportOld) {
      return BadRequest(NoUrlMessage);
    }
    var frontDownloaded, backDownloaded := false, false;
    if Supplied(req.passportFirst) {
      frontDownloaded := frontFetched;
      if !frontDownloaded {
        return InternalError("Failed to download front image from " + req.passportFirst.value);
      }
    }
    if Supplied(req.passportOld) {
      backDownloaded := backFetched;
      if !backDownloaded {
        return InternalError("Failed to download back image from " + req.passportOld.value);
      }
    }
    var r := DetectCards(if frontDownloaded then Present(frontInference) else NoPath,
                         if backDownloaded then Present(backInference) else NoPath,
                         classes, req.confidenceThreshold);
    if r.printDetected {
      return SecurityViolation;
    }
    var frontOk, backOk := r.frontDetected, r.backDetected;
    var both := frontOk && backOk && frontDownloaded && backDownloaded;
    var message := ResponseMessage(frontDownloaded && backDownloaded,
                                   Supplied(req.passportFirst), frontOk, Supplied(req.passportOld), backOk);
    resp := Completed(frontOk || backOk, message,
                      ResponseData(req.userId, frontOk, backOk, r.frontConfidence, r.backConfidence, both,
                                   r.frontDetails, r.backDetails));
  }
}

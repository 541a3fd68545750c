/**
 * The stateless back end: base64 images decoded in memory, a per-image
 * classifier, a two-slot combiner with a status ladder, the endpoint's
 * routing (fraud, force upload, low confidence) and the in-memory manual
 * review queue.
 *
 * Decoding, inference and the clock are outside the model: each slot's
 * decode-and-infer step (a function) and the timestamp are parameters.
 */
module Stateless {
  import opened Wrappers
  import opened Text
  import opened Detections

  datatype Status = Approved | Rejected | PendingReview

  /** `CONFIDENCE_THRESHOLD` and `LOW_CONFIDENCE_THRESHOLD`, read from the environment. */
  datatype Config = Config(confidenceThreshold: real, lowConfidenceThreshold: real)

  /** The defaults used when the environment sets neither threshold. */
  const DefaultConfig: Config := Config(0.15, 0.10)

  /** The dict `detect_from_bytes` returns for one image. */
  datatype ImageResult = ImageResult(
    detected: bool,
    cls: Option<string>,
    confidence: real,
    printDetected: bool,
    allDetections: seq<Detection>,
    error: Option<string>)

  predicate IsCardLabel(name: string)
  {
    name == FrontLabel || name == BackLabel
  }

  /** A printed-copy box strictly above the threshold raises the fraud flag. */
  predicate IsFraudBox(d: Detection, threshold: real)
  {
    d.className == PrintLabel && d.confidence > threshold
  }

  /** A box that may become the image's card: a card label at or above the threshold. */
  predicate IsCardBox(d: Detection, threshold: real)
  {
    d.confidence >= threshold && IsCardLabel(d.className)
  }

  predicate HasFraud(ds: seq<Detection>, threshold: real)
  {
    exists i :: 0 <= i < |ds| && IsFraudBox(ds[i], threshold)
  }

  /**
   * The box the running maximum of the loop settles on after scanning `ds`:
   * a card box replaces the current one only when strictly more confident,
   * and the running value starts at 0.0.
   */
  function BestCard(ds: seq<Detection>, threshold: real): (r: Option<nat>)
    ensures r.Some? ==> r.value < |ds|
  {
    if |ds| == 0 then None
    else
      var prev := BestCard(ds[..|ds| - 1], threshold);
      var current := if prev.Some? then ds[prev.value].confidence else 0.0;
      var last := ds[|ds| - 1];
      if IsCardBox(last, threshold) && last.confidence > current then Some(|ds| - 1) else prev
  }

  /**
   * The running maximum is the most confident card box, the earliest one
   * among equals; there is none exactly when no card box is above 0.0.
   */
  lemma {:induction false} BestCardIsEarliestMaximum(ds: seq<Detection>, threshold: real)
    ensures BestCard(ds, threshold).Some? <==>
      exists i :: 0 <= i < |ds| && IsCardBox(ds[i], threshold) && ds[i].confidence > 0.0
    ensures BestCard(ds, threshold).Some? ==>
      var k := BestCard(ds, threshold).value;
      && IsCardBox(ds[k], threshold) && ds[k].confidence > 0.0
      && (forall j :: 0 <= j < |ds| && IsCardBox(ds[j], threshold) ==> ds[j].confidence <= ds[k].confidence)
      && (forall j :: 0 <= j < k && IsCardBox(ds[j], threshold) ==> ds[j].confidence < ds[k].confidence)
  {
    if |ds| > 0 {
      var init := ds[..|ds| - 1];
      BestCardIsEarliestMaximum(init, threshold);
      assert forall j :: 0 <= j < |init| ==> init[j] == ds[j];
    }
  }

  /** What `detect_from_bytes` returns for the detections `ds` of one inference. */
  ghost predicate ScansTo(r: ImageResult, ds: seq<Detection>, threshold: real)
  {
    && r.allDetections == ds
    && r.error.None?
    && (r.printDetected <==> HasFraud(ds, threshold))
    && match BestCard(ds, threshold)
       case None => !r.detected && r.cls.None? && r.confidence == 0.0
       case Some(k) => r.detected && r.cls == Some(ds[k].className) && r.confidence == ds[k].confidence
  }

  /**
   * `detect_from_bytes`, the loop over the boxes: every box is logged, a
   * printed-copy box above the threshold raises the fraud flag (and card
   * matching goes on), and the most confident card box is kept.
   */
  method DetectFromBytes(inference: InferenceOutcome, classes: map<int, string>, threshold: real)
    returns (r: ImageResult)
    ensures inference.Raised? ==> r == ImageResult(false, None, 0.0, false, [], Some(inference.message))
    ensures inference.Output? ==> ScansTo(r, Named(inference.boxes, classes), threshold)
  {
    if inference.Raised? {
      return ImageResult(false, None, 0.0, false, [], Some(inference.message));
    }
    var boxes := inference.boxes;
    ghost var ds := Named(boxes, classes);
    var detected, cls, confidence, printDetected, all := false, None, 0.0, false, [];
    var i := 0;
    while i < |boxes|
      invariant 0 <= i <= |boxes|
      invariant all == ds[..i]
      invariant printDetected <==> HasFraud(ds[..i], threshold)
      invariant match BestCard(ds[..i], threshold)
        case None => !detected && cls.None? && confidence == 0.0
        case Some(k) => detected && cls == Some(ds[k].className) && confidence == ds[k].confidence
    {
      var c := boxes[i].confidence;
      var name := ClassName(classes, boxes[i].classId);
      all := all + [Detection(name, c)];
      if name == PrintLabel && c > threshold {
        printDetected := true;
      }
      if c >= threshold {
        if name in [FrontLabel, BackLabel] {
          if c > confidence {
            detected, cls, confidence := true, Some(name), c;
          }
        }
      }
      assert ds[..i + 1][..i] == ds[..i];
      i := i + 1;
    }
    assert ds[..i] == ds;
    r := ImageResult(detected, cls, confidence, printDetected, all, None);
  }

  /**
   * A slot's decode-and-infer outcome: None when the image is not supplied or
   * does not decode. `decode` stands for base64 and image decoding followed
   * by the model's inference; it is applied to the payload left after the
   * data-URL prefix is stripped.
   */
  function DecodeSlot(image: Option<string>, decode: string -> Option<InferenceOutcome>): Option<InferenceOutcome>
  {
    if Supplied(image) then decode(StripDataUrlPrefix(image.value)) else None
  }

  /** The detections a slot contributes: none when it has no outcome or the inference raised. */
  function SlotDetections(decoded: Option<InferenceOutcome>, classes: map<int, string>): seq<Detection>
  {
    if decoded.Some? && decoded.value.Output? then Named(decoded.value.boxes, classes) else []
  }

  /** The slot is detected when its best card box carries the slot's own label. */
  predicate SlotMatches(ds: seq<Detection>, threshold: real, side: Side)
  {
    var b := BestCard(ds, threshold);
    b.Some? && ds[b.value].className == ExpectedLabel(side)
  }

  /**
   * A card box of the other side's label that is more confident than every
   * box of the slot's own label makes the slot undetected.
   */
  lemma OtherLabelMasksSlot(ds: seq<Detection>, threshold: real, side: Side, j: nat)
    requires j < |ds| && IsCardBox(ds[j], threshold) && ds[j].className != ExpectedLabel(side)
    requires forall i :: 0 <= i < |ds| && ds[i].className == ExpectedLabel(side) ==> ds[i].confidence < ds[j].confidence
    ensures !SlotMatches(ds, threshold, side)
  {
    BestCardIsEarliestMaximum(ds, threshold);
  }

  function DecodeFailure(side: Side): string
  {
    match side
    case Front => "Failed to decode front image"
    case Back => "Failed to decode back image"
  }

  /** A slot's `details` list: its detections, or one failure entry for a supplied image that did not decode. */
  function SlotDetails(side: Side, image: Option<string>, decoded: Option<InferenceOutcome>,
                       classes: map<int, string>): seq<DetailEntry>
  {
    if Supplied(image) && decoded.None? then [Failure(DecodeFailure(side))] else AsDetails(SlotDetections(decoded, classes))
  }

  /** The per-slot fields of the combined result. */
  datatype SlotResult = SlotResult(detected: bool, confidence: real, printDetected: bool, details: seq<DetailEntry>)

  /**
   * One slot of `detect_cards_from_base64`: strip the data-URL prefix,
   * decode and classify (given), and keep the detection only if the best
   * card box has the slot's label.
   */
  method ProcessSlot(side: Side, image: Option<string>, decode: string -> Option<InferenceOutcome>,
                     classes: map<int, string>, threshold: real)
    returns (s: SlotResult)
    ensures var decoded := DecodeSlot(image, decode);
            var ds := SlotDetections(decoded, classes);
      && (s.detected <==> SlotMatches(ds, threshold, side))
      && s.confidence == (if s.detected then ds[BestCard(ds, threshold).value].confidence else 0.0)
      && (s.printDetected <==> HasFraud(ds, threshold))
      && s.details == SlotDetails(side, image, decoded, classes)
  {
    s := SlotResult(false, 0.0, false, []);
    if Supplied(image) {
      var payload := image.value;
      if ',' in payload {
        payload := StripDataUrlPrefix(payload);
      }
      var decoded := decode(payload);
      if decoded.Some? {
        var r := DetectFromBytes(decoded.value, classes, threshold);
        s := s.(printDetected := r.printDetected);
        if r.detected && r.cls == Some(ExpectedLabel(side)) {
          s := s.(detected := true, confidence := r.confidence);
        }
        s := s.(details := AsDetails(r.allDetections));
      } else {
        s := s.(details := [Failure(DecodeFailure(side))]);
      }
    }
  }

  /**
   * The status ladder at the end of `detect_cards_from_base64`. The single
   * side rung reads `front_confidence or back_confidence`: the front value
   * unless it is 0.0.
   */
  function StatusOf(printDetected: bool, frontDetected: bool, backDetected: bool,
                    frontConfidence: real, backConfidence: real, low: real): (s: Status)
    ensures printDetected ==> s == Rejected
    ensures s == Approved <==>
      !printDetected && frontDetected && backDetected && frontConfidence >= low && backConfidence >= low
    ensures s == PendingReview ==> !printDetected && (frontDetected || backDetected)
    ensures !printDetected && frontDetected && backDetected ==>
      (s == PendingReview <==> frontConfidence < low || backConfidence < low)
    ensures !printDetected && frontDetected && !backDetected && frontConfidence != 0.0 ==>
      (s == PendingReview <==> frontConfidence < low)
    ensures !printDetected && !frontDetected && backDetected && frontConfidence == 0.0 ==>
      (s == PendingReview <==> backConfidence < low)
    ensures !frontDetected && !backDetected ==> s == Rejected
  {
    if printDetected then Rejected
    else if frontDetected && backDetected then
      if frontConfidence < low || backConfidence < low then PendingReview else Approved
    else if frontDetected || backDetected then
      var conf := if frontConfidence != 0.0 then frontConfidence else backConfidence;
      if conf < low then PendingReview else Rejected
    else Rejected
  }

  /** The dict `detect_cards_from_base64` returns. */
  datatype CardsResult = CardsResult(
    frontDetected: bool,
    backDetected: bool,
    frontConfidence: real,
    backConfidence: real,
    printDetected: bool,
    frontDetails: seq<DetailEntry>,
    backDetails: seq<DetailEntry>,
    status: Status)

  /**
   * What `detect_cards_from_base64` returns for the two optional images:
   * each flag, confidence and details list is the one its own slot yields,
   * fraud on either slot sets the flag, and the status ladder decides.
   */
  ghost predicate Classified(r: CardsResult, front: Option<string>, back: Option<string>,
                             decode: string -> Option<InferenceOutcome>, classes: map<int, string>,
                             threshold: real, low: real)
  {
    var fd, bd := DecodeSlot(front, decode), DecodeSlot(back, decode);
    var fs, bs := SlotDetections(fd, classes), SlotDetections(bd, classes);
    && (r.frontDetected <==> SlotMatches(fs, threshold, Front))
    && (r.backDetected <==> SlotMatches(bs, threshold, Back))
    && r.frontConfidence == (if r.frontDetected then fs[BestCard(fs, threshold).value].confidence else 0.0)
    && r.backConfidence == (if r.backDetected then bs[BestCard(bs, threshold).value].confidence else 0.0)
    && (r.printDetected <==> HasFraud(fs, threshold) || HasFraud(bs, threshold))
    && r.frontDetails == SlotDetails(Front, front, fd, classes)
    && r.backDetails == SlotDetails(Back, back, bd, classes)
    && r.status == StatusOf(r.printDetected, r.frontDetected, r.backDetected,
                            r.frontConfidence, r.backConfidence, low)
  }

  /**
   * `detect_cards_from_base64`: each supplied slot is classified on its own,
   * a fraud flag on either side is kept, and the status ladder decides.
   */
  method DetectCardsFromBase64(front: Option<string>, back: Option<string>,
                               decode: string -> Option<InferenceOutcome>,
                               classes: map<int, string>, threshold: real, low: real)
    returns (r: CardsResult)
    ensures Classified(r, front, back, decode, classes, threshold, low)
    ensures r.frontDetected ==> r.frontConfidence >= threshold && r.frontConfidence > 0.0
    ensures r.backDetected ==> r.backConfidence >= threshold && r.backConfidence > 0.0
  {
    var f := ProcessSlot(Front, front, decode, classes, threshold);
    var b := ProcessSlot(Back, back, decode, classes, threshold);
    BestCardIsEarliestMaximum(SlotDetections(DecodeSlot(front, decode), classes), threshold);
    BestCardIsEarliestMaximum(SlotDetections(DecodeSlot(back, decode), classes), threshold);
    var printDetected := f.printDetected || b.printDetected;
    var status := StatusOf(printDetected, f.detected, b.detected, f.confidence, b.confidence, low);
    r := CardsResult(f.detected, b.detected, f.confidence, b.confidence, printDetected,
                     f.details, b.details, status);
  }

  /**
   * With the base threshold at or above the low-confidence threshold, a
   * detected side is never below the low threshold, so the status is never
   * pending review: a single detected side is rejected, two are approved.
   */
  lemma LowConfidenceReviewUnreachable(r: CardsResult, threshold: real, low: real)
    requires low <= threshold
    requires r.frontDetected ==> r.frontConfidence >= threshold && r.frontConfidence > 0.0
    requires r.backDetected ==> r.backConfidence >= threshold && r.backConfidence > 0.0
    requires !r.frontDetected ==> r.frontConfidence == 0.0
    requires r.status == StatusOf(r.printDetected, r.frontDetected, r.backDetected,
                                  r.frontConfidence, r.backConfidence, low)
    ensures r.status != PendingReview
  {
  }

  /** With the default thresholds (0.15 and 0.10), no classification is ever pending review. */
  lemma DefaultThresholdsNeverPendReview(r: CardsResult, front: Option<string>, back: Option<string>,
                                         decode: string -> Option<InferenceOutcome>, classes: map<int, string>)
    requires Classified(r, front, back, decode, classes,
                        DefaultConfig.confidenceThreshold, DefaultConfig.lowConfidenceThreshold)
    ensures r.status != PendingReview
  {
    BestCardIsEarliestMaximum(SlotDetections(DecodeSlot(front, decode), classes), DefaultConfig.confidenceThreshold);
    BestCardIsEarliestMaximum(SlotDetections(DecodeSlot(back, decode), classes), DefaultConfig.confidenceThreshold);
    LowConfidenceReviewUnreachable(r, DefaultConfig.confidenceThreshold, DefaultConfig.lowConfidenceThreshold);
  }

  /** A request to `POST /detect`. */
  datatype Request = Request(
    userId: string,
    frontImage: Option<string>,
    backImage: Option<string>,
    confidenceThreshold: Option<real>,
    forceUpload: bool)

  /** The request's `confidence_threshold`, defaulting to the configured `CONFIDENCE_THRESHOLD` when left out. */
  function RequestThreshold(req: Request, cfg: Config): real
  {
    if req.confidenceThreshold.Some? then req.confidenceThreshold.value else cfg.confidenceThreshold
  }

  /** A `ManualReviewItem`. */
  datatype ReviewItem = ReviewItem(
    userId: string,
    timestamp: string,
    frontConfidence: real,
    backConfidence: real,
    reason: string)

  const ForceUploadReason: string := "Force upload - bypassed client-side checks"
  const LowConfidenceReason: string := "Low confidence detection"
  const NoImageMessage: string := "At least one image (front_image or back_image) is required."

  /** The `data` object of a completed detection. */
  datatype ResponseData = ResponseData(
    userId: string,
    frontDetected: bool,
    backDetected: bool,
    frontConfidence: real,
    backConfidence: real,
    bothDetected: bool,
    status: Status,
    frontDetails: seq<DetailEntry>,
    backDetails: seq<DetailEntry>)

  /** The endpoint's JSON responses. */
  datatype Response =
    | BadRequest(message: string)                   // 400, no image supplied
    | SecurityViolation                             // 400, "Print Aadhaar detected - security violation"
    | SubmittedForReview(userId: string, frontDetected: bool, backDetected: bool,
                         frontConfidence: real, backConfidence: real, bothDetected: bool)
                                                    // 200, force upload, status pending_review
    | Completed(detected: bool, message: string, data: ResponseData)   // 200

  /**
   * What the endpoint does with a detection result, in its order: a fraud
   * flag fails the request, a force upload without both sides goes to
   * review, and otherwise a pending status queues a low-confidence review.
   * The second component is the review item queued, if any.
   */
  function Route(req: Request, r: CardsResult, now: string): (out: (Response, Option<ReviewItem>))
    ensures r.printDetected ==> out == (SecurityViolation, None)
    ensures !r.printDetected && req.forceUpload && !(r.frontDetected && r.backDetected) ==>
      && out.0.SubmittedForReview?
      && out.1 == Some(ReviewItem(req.userId, now, r.frontConfidence, r.backConfidence, ForceUploadReason))
    ensures out.0.SubmittedForReview? ==>
      out.0 == SubmittedForReview(req.userId, r.frontDetected, r.backDetected,
                                  r.frontConfidence, r.backConfidence, r.frontDetected && r.backDetected)
    ensures out.0.Completed? <==> !r.printDetected && !(req.forceUpload && !(r.frontDetected && r.backDetected))
    ensures out.0.Completed? ==>
      out.0.data == ResponseData(req.userId, r.frontDetected, r.backDetected, r.frontConfidence, r.backConfidence,
                                 BothProvidedAndDetected(r.frontDetected, r.backDetected, req.frontImage, req.backImage),
                                 r.status, r.frontDetails, r.backDetails)
    ensures out.0.Completed? ==>
      && out.0.data.status == r.status
      && out.0.detected == (r.frontDetected || r.backDetected)
      && (out.0.data.bothDetected <==>
            r.frontDetected && r.backDetected && Supplied(req.frontImage) && Supplied(req.backImage))
      && out.0.message == ResponseMessage(Supplied(req.frontImage) && Supplied(req.backImage),
                                          Supplied(req.frontImage), r.frontDetected,
                                          Supplied(req.backImage), r.backDetected)
      && (out.1.Some? <==> r.status == PendingReview)
      && (out.1.Some? ==> out.1.value.reason == LowConfidenceReason)
    ensures out.1.Some? ==>
      out.1.value.userId == req.userId && out.1.value.timestamp == now &&
      out.1.value.frontConfidence == r.frontConfidence && out.1.value.backConfidence == r.backConfidence
  {
    if r.printDetected then (SecurityViolation, None)
    else if req.forceUpload && !(r.frontDetected && r.backDetected) then
      (SubmittedForReview(req.userId, r.frontDetected, r.backDetected, r.frontConfidence, r.backConfidence,
                          r.frontDetected && r.backDetected),
       Some(ReviewItem(req.userId, now, r.frontConfidence, r.backConfidence, ForceUploadReason)))
    else
      var queued := if r.status == PendingReview
        then Some(ReviewItem(req.userId, now, r.frontConfidence, r.backConfidence, LowConfidenceReason))
        else None;
      var frontOk, backOk := r.frontDetected, r.backDetected;
      var both := BothProvidedAndDetected(frontOk, backOk, req.frontImage, req.backImage);
      var message := ResponseMessage(Supplied(req.frontImage) && Supplied(req.backImage),
                                     Supplied(req.frontImage), frontOk, Supplied(req.backImage), backOk);
      (Completed(frontOk || backOk, message,
                 ResponseData(req.userId, frontOk, backOk, r.frontConfidence, r.backConfidence, both,
                              r.status, r.frontDetails, r.backDetails)),
       queued)
  }

  /** A Python value as the `both_detected` expression can produce it. */
  datatype PyValue = PyNone | PyBool(b: bool) | PyStr(s: string)

  /** Python truthiness. */
  predicate Truthy(v: PyValue)
  {
    match v
    case PyNone => false
    case PyBool(b) => b
    case PyStr(s) => s != ""
  }

  /** An optional request string as a Python value. */
  function PyOf(image: Option<string>): PyValue
  {
    if image.Some? then PyStr(image.value) else PyNone
  }

  /** Python's `x and y`: `x` when it is falsy, `y` otherwise. */
  function PyAnd(x: PyValue, y: PyValue): (r: PyValue)
    ensures Truthy(r) <==> Truthy(x) && Truthy(y)
    ensures !Truthy(x) ==> r == x
    ensures Truthy(x) ==> r == y
  {
    if Truthy(x) then y else x
  }

  /**
   * `front_ok and back_ok and request.front_image and request.back_image`
   * as written: the value of the last operand evaluated.
   */
  function BothDetectedAsWritten(frontOk: bool, backOk: bool,
                                 frontImage: Option<string>, backImage: Option<string>): PyValue
  {
    PyAnd(PyAnd(PyAnd(PyBool(frontOk), PyBool(backOk)), PyOf(frontImage)), PyOf(backImage))
  }

  /**
   * When both sides are supplied and detected, the `both_detected` field
   * holds the back image's base64 text rather than `true`.
   */
  lemma BothDetectedIsBackImage(frontOk: bool, backOk: bool, frontImage: Option<string>, backImage: Option<string>)
    requires frontOk && backOk && Supplied(frontImage) && Supplied(backImage)
    ensures BothDetectedAsWritten(frontOk, backOk, frontImage, backImage) == PyStr(backImage.value)
    ensures BothDetectedAsWritten(frontOk, backOk, frontImage, backImage) != PyBool(true)
  {
  }

  /** `both_detected` as a boolean: both images supplied and both sides detected. */
  function BothProvidedAndDetected(frontOk: bool, backOk: bool,
                                   frontImage: Option<string>, backImage: Option<string>): (both: bool)
    ensures both <==> Truthy(BothDetectedAsWritten(frontOk, backOk, frontImage, backImage))
    ensures both ==> frontOk && backOk && Supplied(frontImage) && Supplied(backImage)
  {
    frontOk && backOk && Supplied(frontImage) && Supplied(backImage)
  }

  /** The process-wide in-memory manual review queue. */
  class ReviewQueue {
    var items: seq<ReviewItem>

    constructor ()
      ensures items == []
    {
      items := [];
    }

    /** `add_to_review_queue`: append, nothing else. */
    method Add(item: ReviewItem)
      modifies this
      ensures items == old(items) + [item]
    {
      items := items + [item];
    }

    /** `GET /review-queue`: the items in insertion order and their count. */
    method Listing() returns (count: nat, listed: seq<ReviewItem>)
      ensures count == |items| && listed == items
    {
      count, listed := |items|, items;
    }
  }

  /** The queue entries a routed review item adds. */
  function Queued(item: Option<ReviewItem>): seq<ReviewItem>
  {
    if item.Some? then [item.value] else []
  }

  /**
   * `POST /detect`: reject a request with no image, classify both slots,
   * route the result, and queue the review item the route produces.
   */
  method DetectAadhaarCardsStateless(queue: ReviewQueue, req: Request,
                                     decode: string -> Option<InferenceOutcome>,
                                     classes: map<int, string>, cfg: Config, now: string)
    returns (resp: Response)
    modifies queue
    ensures !Supplied(req.frontImage) && !Supplied(req.backImage) ==>
      resp == BadRequest(NoImageMessage) && queue.items == old(queue.items)
    ensures Supplied(req.frontImage) || Supplied(req.backImage) ==>
      exists r :: Classified(r, req.frontImage, req.backImage, decode, classes,
                             RequestThreshold(req, cfg), cfg.lowConfidenceThreshold)
        && resp == Route(req, r, now).0
        && queue.items == old(queue.items) + Queued(Route(req, r, now).1)
    ensures Supplied(req.frontImage) || Supplied(req.backImage) ==>
      var t := RequestThreshold(req, cfg);
      var fs := SlotDetections(DecodeSlot(req.frontImage, decode), classes);
      var bs := SlotDetections(DecodeSlot(req.backImage, decode), classes);
      (resp == SecurityViolation <==> HasFraud(fs, t) || HasFraud(bs, t))
  {
    if !Supplied(req.frontImage) && !Supplied(req.backImage) {
      return BadRequest(NoImageMessage);
    }
    var r := DetectCardsFromBase64(req.frontImage, req.backImage, decode,
                                   classes, RequestThreshold(req, cfg), cfg.lowConfidenceThreshold);
    var out := Route(req, r, now);
    resp := out.0;
    if out.1.Some? {
      queue.Add(out.1.value);
    }
  }
}

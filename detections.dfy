/**
 * What both YOLO-based detectors share: the raw boxes an inference returns,
 * the class-name lookup with its "unknown" fallback, the per-side detail
 * entries of a response, and the response message ladder.
 */
module Detections {
  import opened Wrappers
  import opened Text

  /** The class labels of the YOLO model used by both HTTP back ends. */
  const PrintLabel: string := "print_aadhar"
  const FrontLabel: string := "aadhar_front"
  const BackLabel: string := "aadhar_back"
  const UnknownLabel: string := "unknown"

  /** One box of the inference output: its class id and its confidence. */
  datatype RawBox = RawBox(classId: int, confidence: real)

  /** A box with its class id resolved to a label. */
  datatype Detection = Detection(className: string, confidence: real)

  /** What an inference call produced: the boxes, or the text of the exception it raised. */
  datatype InferenceOutcome = Output(boxes: seq<RawBox>) | Raised(message: string)

  /** One entry of `details.front` / `details.back` in a response. */
  datatype DetailEntry = Found(className: string, confidence: real) | Failure(error: string)

  /** An optional request field counts as supplied when present and non-empty (Python truthiness). */
  predicate Supplied(image: Option<string>)
  {
    image.Some? && image.value != ""
  }

  /** The image slot of a two-sided submission. */
  datatype Side = Front | Back

  /** The card label a slot expects. */
  function ExpectedLabel(side: Side): (l: string)
    ensures l != PrintLabel
  {
    match side
    case Front => FrontLabel
    case Back => BackLabel
  }

  /** `self.card_classes.get(class_id, "unknown")`. */
  function ClassName(classes: map<int, string>, classId: int): string
  {
    if classId in classes then classes[classId] else UnknownLabel
  }

  /** Every box, in order, with its class id resolved. */
  function Named(boxes: seq<RawBox>, classes: map<int, string>): (ds: seq<Detection>)
    ensures |ds| == |boxes|
    ensures forall i :: 0 <= i < |boxes| ==>
      ds[i] == Detection(ClassName(classes, boxes[i].classId), boxes[i].confidence)
  {
    seq(|boxes|, i requires 0 <= i < |boxes| =>
      Detection(ClassName(classes, boxes[i].classId), boxes[i].confidence))
  }

  /** Detections as response detail entries, in the same order. */
  function AsDetails(ds: seq<Detection>): (es: seq<DetailEntry>)
    ensures |es| == |ds|
    ensures forall i :: 0 <= i < |ds| ==> es[i] == Found(ds[i].className, ds[i].confidence)
  {
    seq(|ds|, i requires 0 <= i < |ds| => Found(ds[i].className, ds[i].confidence))
  }

  const BothMessage: string := "Both Aadhaar cards detected successfully."
  const FrontMessage: string := "Aadhaar front card detected successfully."
  const BackMessage: string := "Aadhaar back card detected successfully."
  const MissingPrefix: string := "Could not detect Aadhaar card(s): "
  const NothingMessage: string := "No Aadhaar card detected in the provided image(s)."

  /** The sides that were requested but not detected, front before back. */
  function MissingSides(frontRequested: bool, frontOk: bool, backRequested: bool, backOk: bool): (m: seq<string>)
    ensures "front" in m <==> frontRequested && !frontOk
    ensures "back" in m <==> backRequested && !backOk
    ensures forall x :: x in m ==> x == "front" || x == "back"
    ensures |m| <= 2 && (|m| == 2 ==> m == ["front", "back"])
  {
    (if frontRequested && !frontOk then ["front"] else []) +
    (if backRequested && !backOk then ["back"] else [])
  }

  /**
   * The response message of both detection endpoints. `bothProvided` is the
   * endpoint's own test that both images were there (supplied, or downloaded).
   * The first matching rung wins: both, front, back, the missing sides, and
   * a generic text when nothing was requested.
   */
  function ResponseMessage(bothProvided: bool, frontRequested: bool, frontOk: bool,
                           backRequested: bool, backOk: bool): (msg: string)
    ensures msg == BothMessage <==> frontOk && backOk && bothProvided
    ensures msg == FrontMessage <==> frontOk && !(backOk && bothProvided)
    ensures msg == BackMessage <==> !frontOk && backOk
    ensures !frontOk && !backOk && (frontRequested || backRequested) ==>
      msg == MissingPrefix + Join(MissingSides(frontRequested, false, backRequested, false), ", ") + "."
    ensures msg == NothingMessage <==> !frontOk && !backOk && !frontRequested && !backRequested
  {
    if frontOk && backOk && bothProvided then BothMessage
    else if frontOk then FrontMessage
    else if backOk then BackMessage
    else
      var missing := MissingSides(frontRequested, frontOk, backRequested, backOk);
      if |missing| > 0 then
        var text := MissingText(missing);
        assert text[0] == text[..|MissingPrefix|][0];
        text
      else
        NothingMessage
  }

  /** `f"Could not detect Aadhaar card(s): {', '.join(missing)}."` */
  function MissingText(missing: seq<string>): (msg: string)
    requires 0 < |missing| <= 2
    ensures |msg| > |MissingPrefix| && msg[..|MissingPrefix|] == MissingPrefix
  {
    MissingPrefix + Join(missing, ", ") + "."
  }

  /** With some side requested, the generic fallback text is never produced. */
  lemma MessageNamesMissingSides(bothProvided: bool, frontRequested: bool, frontOk: bool,
                                 backRequested: bool, backOk: bool)
    requires frontRequested || backRequested
    ensures var msg := ResponseMessage(bothProvided, frontRequested, frontOk, backRequested, backOk);
      msg in {BothMessage, FrontMessage, BackMessage} || msg[..|MissingPrefix|] == MissingPrefix
  {
  }
}

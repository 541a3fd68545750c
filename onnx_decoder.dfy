/**
 * Decoding of a YOLOv8 output tensor `[1, 4 + 3, N]` by the ONNX detector:
 * per candidate the class is the argmax over the three class channels, the
 * most confident candidate above 0.25 becomes the detection with its box
 * scaled from the 640 x 640 model input to the original image, and the
 * candidates above 0.1 are logged, most confident first.
 *
 * The tensor is given channel by candidate (the batch dimension dropped);
 * running the ONNX session and preprocessing the image are outside the model.
 */
module OnnxDecoder {
  import opened Wrappers
  import opened Text

  const ModelInputSize: nat := 640
  /** Class order of the model: index 0 = back, 1 = front, 2 = print. */
  const ClassNames: seq<string> := ["aadhaar_back", "aadhaar_front", "print_aadhaar"]
  const ConfidenceThreshold: real := 0.25
  const LogThreshold: real := 0.1

  /** The output tensor: `channels[c][i]` is channel `c` of candidate `i`. */
  datatype Tensor = Tensor(channels: seq<seq<real>>, candidates: nat)

  /** A numpy array is rectangular: every channel has one entry per candidate. */
  predicate Rectangular(t: Tensor)
  {
    forall c :: 0 <= c < |t.channels| ==> |t.channels[c]| == t.candidates
  }

  /** What `session.run` hands back: always a rectangular array. */
  type OutputTensor = t: Tensor | Rectangular(t) witness Tensor([], 0)

  /** The first `n` candidates can be read: the box and class channels exist. */
  predicate Readable(t: Tensor, n: nat)
  {
    Rectangular(t) && n <= t.candidates && (n > 0 ==> |t.channels| >= 4 + |ClassNames|)
  }

  /** `class_scores` of candidate `i`: channels 4, 5 and 6. */
  function ClassScores(t: Tensor, i: nat): (s: seq<real>)
    requires Readable(t, i + 1)
    ensures |s| == |ClassNames|
  {
    [t.channels[4][i], t.channels[5][i], t.channels[6][i]]
  }

  /** Python's `max` over a non-empty list. */
  function MaxOf(s: seq<real>): (m: real)
    requires |s| > 0
    ensures m in s
    ensures forall j :: 0 <= j < |s| ==> s[j] <= m
  {
    if |s| == 1 then s[0]
    else
      var rest := MaxOf(s[1..]);
      if s[0] >= rest then s[0] else rest
  }

  /** Python's `list.index`: the first position holding `x`. */
  function IndexOf(s: seq<real>, x: real): (k: nat)
    requires x in s
    ensures k < |s| && s[k] == x
    ensures forall j :: 0 <= j < k ==> s[j] != x
  {
    if s[0] == x then 0 else 1 + IndexOf(s[1..], x)
  }

  /** `max_score` of candidate `i`. */
  function Score(t: Tensor, i: nat): real
    requires Readable(t, i + 1)
  {
    MaxOf(ClassScores(t, i))
  }

  /**
   * `max_class_idx` of candidate `i`: a class whose score is the maximum,
   * the lowest such index on ties.
   */
  function ClassIndex(t: Tensor, i: nat): (k: nat)
    requires Readable(t, i + 1)
    ensures k < |ClassNames|
    ensures ClassScores(t, i)[k] == Score(t, i)
    ensures forall c :: 0 <= c < |ClassNames| ==> ClassScores(t, i)[c] <= ClassScores(t, i)[k]
    ensures forall c :: 0 <= c < k ==> ClassScores(t, i)[c] < ClassScores(t, i)[k]
  {
    IndexOf(ClassScores(t, i), Score(t, i))
  }

  /** A rectangle in original-image pixels, top-left corner first. */
  datatype BBox = BBox(x: real, y: real, width: real, height: real)

  /**
   * A centre-form box at the model's 640 x 640 input scaled to an image of
   * `imageWidth` x `imageHeight`: the centre lands on the scaled centre and
   * each side keeps its proportion of the image.
   */
  function ScaleBox(xCenter: real, yCenter: real, w: real, h: real, imageWidth: nat, imageHeight: nat): (b: BBox)
    ensures b.x + b.width / 2.0 == xCenter * (imageWidth as real / ModelInputSize as real)
    ensures b.y + b.height / 2.0 == yCenter * (imageHeight as real / ModelInputSize as real)
    ensures b.width * ModelInputSize as real == w * imageWidth as real
    ensures b.height * ModelInputSize as real == h * imageHeight as real
  {
    var scaleX := imageWidth as real / ModelInputSize as real;
    var scaleY := imageHeight as real / ModelInputSize as real;
    BBox((xCenter - w / 2.0) * scaleX, (yCenter - h / 2.0) * scaleY, w * scaleX, h * scaleY)
  }

  /** The `best_detection` dict. */
  datatype Best = Best(detected: bool, cardType: Option<string>, confidence: real, bbox: Option<BBox>)

  const NoDetection: Best := Best(false, None, 0.0, None)

  /** `max_score` of each of the first `n` candidates, in candidate order. */
  function ScoresOf(t: Tensor, n: nat): (s: seq<real>)
    requires Readable(t, n)
    ensures |s| == n
    ensures forall i :: 0 <= i < n ==> s[i] == Score(t, i)
  {
    seq(n, i requires 0 <= i < n => Score(t, i))
  }

  /**
   * The position `best_detection` holds after a run of scores: a score
   * replaces it only when it is above 0.25 and strictly above the current
   * confidence (0.0 at the start).
   */
  function RunningBest(s: seq<real>): (r: Option<nat>)
    ensures r.Some? ==> r.value < |s|
  {
    if |s| == 0 then None
    else
      var prev := RunningBest(s[..|s| - 1]);
      var current := if prev.Some? then s[prev.value] else 0.0;
      if s[|s| - 1] > ConfidenceThreshold && s[|s| - 1] > current then Some(|s| - 1) else prev
  }

  /** There is a best position iff some score is above 0.25. */
  lemma {:induction false} RunningBestExists(s: seq<real>)
    ensures RunningBest(s).Some? <==> exists i :: 0 <= i < |s| && s[i] > ConfidenceThreshold
  {
    if |s| > 0 {
      var init := s[..|s| - 1];
      RunningBestExists(init);
      RunningBestIsEarliestMaximum(init);
      if RunningBest(init).None? && s[|s| - 1] <= ConfidenceThreshold {
        forall i | 0 <= i < |s| ensures s[i] <= ConfidenceThreshold {
          if i < |s| - 1 {
            assert s[i] == init[i];
          }
        }
      }
      if RunningBest(init).Some? {
        assert s[RunningBest(init).value] == init[RunningBest(init).value];
      }
    }
  }

  /** The best position holds a maximal score above 0.25, the earliest among equals. */
  lemma {:induction false} RunningBestIsEarliestMaximum(s: seq<real>)
    ensures RunningBest(s).Some? ==>
      var k := RunningBest(s).value;
      && s[k] > ConfidenceThreshold
      && (forall j :: 0 <= j < |s| ==> s[j] <= s[k])
      && (forall j :: 0 <= j < k ==> s[j] < s[k])
  {
    if |s| > 0 {
      var init := s[..|s| - 1];
      RunningBestIsEarliestMaximum(init);
      RunningBestExists(init);
      assert forall j :: 0 <= j < |init| ==> init[j] == s[j];
    }
  }

  /** The candidate `best_detection` holds after the first `n` candidates. */
  function BestUpTo(t: Tensor, n: nat): (r: Option<nat>)
    requires Readable(t, n)
    ensures r.Some? ==> r.value < n
  {
    RunningBest(ScoresOf(t, n))
  }

  /** The loop step: candidate `n` replaces the best so far under the rule of `RunningBest`. */
  lemma BestUpToStep(t: Tensor, n: nat)
    requires Readable(t, n + 1)
    ensures var prev := BestUpTo(t, n);
      var current := if prev.Some? then Score(t, prev.value) else 0.0;
      BestUpTo(t, n + 1) ==
        if Score(t, n) > ConfidenceThreshold && Score(t, n) > current then Some(n) else prev
  {
    assert ScoresOf(t, n + 1)[..n] == ScoresOf(t, n);
  }

  /**
   * There is a detection iff some candidate scores above 0.25; it is then a
   * candidate of maximal score, the earliest among equals.
   */
  lemma BestUpToIsEarliestMaximum(t: Tensor, n: nat)
    requires Readable(t, n)
    ensures BestUpTo(t, n).Some? <==> exists i :: 0 <= i < n && Score(t, i) > ConfidenceThreshold
    ensures BestUpTo(t, n).Some? ==>
      var k := BestUpTo(t, n).value;
      && Score(t, k) > ConfidenceThreshold
      && (forall j :: 0 <= j < n ==> Score(t, j) <= Score(t, k))
      && (forall j :: 0 <= j < k ==> Score(t, j) < Score(t, k))
  {
    var s := ScoresOf(t, n);
    RunningBestExists(s);
    RunningBestIsEarliestMaximum(s);
  }

  /** The detection reported for candidate `k`. */
  function DetectionOf(t: Tensor, k: nat, imageWidth: nat, imageHeight: nat): (b: Best)
    requires Readable(t, k + 1)
  {
    Best(true, Some(ClassNames[ClassIndex(t, k)]), Score(t, k),
         Some(ScaleBox(t.channels[0][k], t.channels[1][k], t.channels[2][k], t.channels[3][k],
                       imageWidth, imageHeight)))
  }

  /** `best_detection` after the first `n` candidates. */
  function BestAfter(t: Tensor, n: nat, imageWidth: nat, imageHeight: nat): (b: Best)
    requires Readable(t, n)
    ensures b.detected ==> b.cardType.Some? && b.cardType.value in ClassNames && b.confidence > ConfidenceThreshold
    ensures !b.detected ==> b == NoDetection
  {
    BestUpToIsEarliestMaximum(t, n);
    match BestUpTo(t, n)
    case None => NoDetection
    case Some(k) => DetectionOf(t, k, imageWidth, imageHeight)
  }

  /** One entry of `all_detections`. */
  datatype LogEntry = LogEntry(idx: nat, cls: string, score: real)

  /** The `all_detections` entry of candidate `i`. */
  function EntryOf(t: Tensor, i: nat): LogEntry
    requires Readable(t, i + 1)
  {
    LogEntry(i, ClassNames[ClassIndex(t, i)], Score(t, i))
  }

  /** `all_detections` before sorting: the candidates scoring above 0.1, in candidate order. */
  function Logged(t: Tensor, n: nat): seq<LogEntry>
    requires Readable(t, n)
  {
    if n == 0 then []
    else if Score(t, n - 1) > LogThreshold then Logged(t, n - 1) + [EntryOf(t, n - 1)]
    else Logged(t, n - 1)
  }

  /** `e` is the entry of one of the first `n` candidates, and that candidate scores above 0.1. */
  predicate LoggedCandidate(t: Tensor, n: nat, e: LogEntry)
    requires Readable(t, n)
  {
    e.idx < n && Score(t, e.idx) > LogThreshold && e == EntryOf(t, e.idx)
  }

  /** The log holds exactly the entries of the candidates above 0.1. */
  lemma {:induction false} LoggedIsCandidatesAboveLogThreshold(t: Tensor, n: nat)
    requires Readable(t, n)
    ensures forall e :: e in Logged(t, n) <==> LoggedCandidate(t, n, e)
  {
    if n > 0 {
      LoggedIsCandidatesAboveLogThreshold(t, n - 1);
    }
  }

  /** The log is in increasing candidate order. */
  lemma {:induction false} LoggedInCandidateOrder(t: Tensor, n: nat)
    requires Readable(t, n)
    ensures IdxIncreasing(Logged(t, n))
  {
    if n > 0 {
      LoggedInCandidateOrder(t, n - 1);
      LoggedIsCandidatesAboveLogThreshold(t, n - 1);
      var init := Logged(t, n - 1);
      assert forall p :: 0 <= p < |init| ==> init[p] in init;
    }
  }

  predicate IdxIncreasing(s: seq<LogEntry>)
  {
    forall p, q :: 0 <= p < q < |s| ==> s[p].idx < s[q].idx
  }

  /** `x` comes before `y` in a stable descending sort of candidate-ordered entries. */
  predicate Precedes(x: LogEntry, y: LogEntry)
  {
    x.score > y.score || (x.score == y.score && x.idx < y.idx)
  }

  /** Scores never increase; equal scores keep candidate order. */
  predicate SortedLog(s: seq<LogEntry>)
  {
    forall p, q :: 0 <= p < q < |s| ==> Precedes(s[p], s[q])
  }

  /** Exchanges `a[p]` and `a[q]`. */
  method Swap(a: array<LogEntry>, p: nat, q: nat)
    requires p < q < a.Length
    modifies a
    ensures a[..] == old(a[..])[p := old(a[q])][q := old(a[p])]
    ensures multiset(a[..]) == old(multiset(a[..]))
  {
    a[p], a[q] := a[q], a[p];
  }

  /**
   * One step of the insertion sort: `a[i]` moves left past every entry with
   * a strictly lower score.
   */
  method InsertAt(a: array<LogEntry>, i: nat)
    requires 0 < i < a.Length
    requires SortedLog(a[..i])
    requires forall p :: 0 <= p < i ==> a[p].idx < a[i].idx
    modifies a
    ensures SortedLog(a[..i + 1])
    ensures multiset(a[..]) == old(multiset(a[..]))
    ensures a[i + 1..] == old(a[i + 1..])
    ensures forall p :: 0 <= p <= i ==> a[p].idx <= old(a[i].idx)
  {
    var j := i;
    while j > 0 && a[j - 1].score < a[j].score
      invariant 0 <= j <= i
      invariant multiset(a[..]) == old(multiset(a[..]))
      invariant a[i + 1..] == old(a[i + 1..])
      invariant forall p, q :: 0 <= p < q <= i && p != j && q != j ==> Precedes(a[p], a[q])
      invariant forall q :: j < q <= i ==> Precedes(a[j], a[q])
      invariant forall p :: 0 <= p <= i && p != j ==> a[p].idx < a[j].idx
      invariant a[j] == old(a[i])
    {
      Swap(a, j - 1, j);
      j := j - 1;
    }
    forall p, q | 0 <= p < q <= i
      ensures Precedes(a[p], a[q])
    {
      if q == j && p < j - 1 {
        assert Precedes(a[p], a[j - 1]);
      }
    }
  }

  /** `all_detections.sort(key=score, reverse=True)`, a stable sort in place. */
  method SortByScoreDescending(a: array<LogEntry>)
    requires IdxIncreasing(a[..])
    modifies a
    ensures SortedLog(a[..])
    ensures multiset(a[..]) == old(multiset(a[..]))
  {
    if a.Length == 0 {
      return;
    }
    var i := 1;
    while i < a.Length
      invariant 1 <= i <= a.Length
      invariant SortedLog(a[..i])
      invariant multiset(a[..]) == old(multiset(a[..]))
      invariant a[i..] == old(a[i..])
      invariant forall p, q :: 0 <= p < i <= q < a.Length ==> a[p].idx < a[q].idx
    {
      InsertAt(a, i);
      i := i + 1;
    }
    assert a[..i] == a[..];
  }

  /** What `detect` returns: `best_detection`, and the sorted `all_detections` it logs. */
  datatype Decoded = Decoded(best: Best, log: seq<LogEntry>)

  /**
   * `MalformedOutput`: the tensor has candidates but fewer than 4 + 3
   * channels, so reading a class score raises `IndexError`.
   * `UndecodableImage`: `cv2.imdecode` returned None.
   */
  datatype DetectError = MalformedOutput | UndecodableImage

  /**
   * What `detect` produces from tensor `t` for an image of the given size:
   * an error exactly when the class channels are missing, and otherwise the
   * best candidate as `BestAfter` selects it and the log holding exactly the
   * candidates above 0.1, sorted by score with candidate order on ties.
   */
  ghost predicate DecodesTo(t: OutputTensor, imageWidth: nat, imageHeight: nat, r: Result<Decoded, DetectError>)
  {
    && (r.Err? <==> t.candidates > 0 && |t.channels| < 4 + |ClassNames|)
    && (r.Err? ==> r.error == MalformedOutput)
    && (r.Ok? ==>
          && Readable(t, t.candidates)
          && r.value.best == BestAfter(t, t.candidates, imageWidth, imageHeight)
          && SortedLog(r.value.log)
          && multiset(r.value.log) == multiset(Logged(t, t.candidates)))
  }

  /** `class_scores` of candidate `i`, read channel by channel. */
  method ReadClassScores(t: OutputTensor, i: nat) returns (scores: seq<real>)
    requires Readable(t, i + 1)
    ensures scores == ClassScores(t, i)
  {
    scores := [];
    var c := 0;
    while c < |ClassNames|
      invariant 0 <= c <= |ClassNames|
      invariant scores == ClassScores(t, i)[..c]
    {
      scores := scores + [t.channels[4 + c][i]];
      c := c + 1;
    }
  }

  /** One pass of the candidate loop: log candidate `i`, and take it as the best if it beats the current one. */
  method ScanCandidate(t: OutputTensor, i: nat, imageWidth: nat, imageHeight: nat, best: Best, log: seq<LogEntry>)
    returns (best': Best, log': seq<LogEntry>)
    requires Readable(t, i + 1)
    requires best == BestAfter(t, i, imageWidth, imageHeight)
    requires log == Logged(t, i)
    ensures best' == BestAfter(t, i + 1, imageWidth, imageHeight)
    ensures log' == Logged(t, i + 1)
  {
    BestUpToStep(t, i);
    var scores := ReadClassScores(t, i);
    var maxScore := MaxOf(scores);
    var maxClass := IndexOf(scores, maxScore);
    log' := log;
    if maxScore > LogThreshold {
      log' := log + [LogEntry(i, ClassNames[maxClass], maxScore)];
    }
    best' := best;
    if maxScore > ConfidenceThreshold && maxScore > best.confidence {
      var box := ScaleBox(t.channels[0][i], t.channels[1][i], t.channels[2][i], t.channels[3][i],
                          imageWidth, imageHeight);
      best' := Best(true, Some(ClassNames[maxClass]), maxScore, Some(box));
    }
  }

  /** `AadhaarDetector.detect` after `session.run`: the candidate loop and the log sort. */
  method Detect(t: OutputTensor, imageWidth: nat, imageHeight: nat) returns (r: Result<Decoded, DetectError>)
    ensures DecodesTo(t, imageWidth, imageHeight, r)
  {
    if t.candidates > 0 && |t.channels| < 4 + |ClassNames| {
      return Err(MalformedOutput);
    }
    var best, log := ScanCandidates(t, imageWidth, imageHeight);
    LoggedInCandidateOrder(t, t.candidates);
    var sorted := SortedCopy(log);
    return Ok(Decoded(best, sorted));
  }

  /** The candidate loop: `best_detection` and the unsorted `all_detections`. */
  method ScanCandidates(t: OutputTensor, imageWidth: nat, imageHeight: nat) returns (best: Best, log: seq<LogEntry>)
    requires Readable(t, t.candidates)
    ensures best == BestAfter(t, t.candidates, imageWidth, imageHeight)
    ensures log == Logged(t, t.candidates)
  {
    best := NoDetection;
    log := [];
    var i := 0;
    while i < t.candidates
      invariant 0 <= i <= t.candidates
      invariant best == BestAfter(t, i, imageWidth, imageHeight)
      invariant log == Logged(t, i)
    {
      best, log := ScanCandidate(t, i, imageWidth, imageHeight, best, log);
      i := i + 1;
    }
  }

  /** The log sorted in place as a list, returned as a new sequence. */
  method SortedCopy(log: seq<LogEntry>) returns (sorted: seq<LogEntry>)
    requires IdxIncreasing(log)
    ensures SortedLog(sorted)
    ensures multiset(sorted) == multiset(log)
  {
    var a := new LogEntry[|log|](k requires 0 <= k < |log| => log[k]);
    assert a[..] == log;
    SortByScoreDescending(a);
    sorted := a[..];
  }

  /** The image a base64 payload decodes to, with the model's output for it. */
  datatype Frame = Frame(width: nat, height: nat, output: OutputTensor)

  /**
   * `detect_from_base64`: the data-URL prefix is stripped, the payload is
   * decoded (`decodeAndRun` stands for base64 and image decoding followed by
   * preprocessing and the ONNX session), and an undecodable image is an error.
   */
  method DetectFromBase64(base64Str: string, decodeAndRun: string -> Option<Frame>)
    returns (r: Result<Decoded, DetectError>)
    ensures decodeAndRun(StripDataUrlPrefix(base64Str)).None? <==> r == Err(UndecodableImage)
    ensures decodeAndRun(StripDataUrlPrefix(base64Str)).Some? ==>
      var f := decodeAndRun(StripDataUrlPrefix(base64Str)).value;
      DecodesTo(f.output, f.width, f.height, r)
  {
    var payload := base64Str;
    if ',' in payload {
      payload := StripDataUrlPrefix(payload);
    }
    var frame := decodeAndRun(payload);
    if frame.None? {
      return Err(UndecodableImage);
    }
    r := Detect(frame.value.output, frame.value.width, frame.value.height);
  }
}

# Aadhaar card verification: decision logic in Dafny

The back end of this AI verification front end decides whether a user's
Aadhaar card images pass. A YOLO model reports boxes, each with a label and
a confidence. The back end turns those boxes into a verdict. Three variants
make that decision, each with its own rules, and a fourth script prepares
the ONNX model for the browser. This project models and proves the
decision logic of all four.

- **Stateless back end** (`backend/main_stateless.py`), module `Stateless`.
  - `detect_from_bytes` classifies one image:
    - every box is logged;
    - a `print_aadhar` box strictly above the threshold raises the fraud flag;
    - a running maximum keeps the most confident `aadhar_front`/`aadhar_back` box at or above the threshold.
  - `detect_cards_from_base64` combines the front and back slots. A slot counts only if its best card box carries the slot's own label. A status ladder then picks approved, pending review or rejected, with rejected as the default.
  - The `POST /detect` endpoint routes in this order:
    1. fraud fails the request;
    2. a force upload without both sides goes to manual review;
    3. a pending status queues a low-confidence review;
    4. otherwise a message is built from fixed templates.
  - The in-memory review queue is a class whose item list only grows.
- **URL back end** (`backend/main.py`), module `UrlDetector`.
  - Each side's loop skips boxes below the threshold.
  - A `print_aadhar` box raises fraud and is never a card (`elif`).
  - A card box of the side's label marks the side detected, overwrites its confidence (the last one wins) and is logged.
  - The endpoint returns 400 without a URL, 500 when a download fails, 400 on fraud, and otherwise a message from the same ladder.
- **ONNX decoder** (`backend/onnx_detector.py`), module `OnnxDecoder`.
  - The output tensor `[1, 4 + 3, N]` is decoded candidate by candidate:
    - the class is the argmax over the three class channels, lowest index on ties;
    - the best candidate strictly above 0.25 is kept, the earliest on ties;
    - its centre-form box at 640 × 640 is turned into a top-left rectangle in image pixels.
  - Candidates above 0.1 are logged and sorted in place by descending score. The sort is a stable insertion sort on an array.
- **INT8 quantisation script** (`backend/quantize_to_int8.py`), module `Quantize`:
  - the calibration data reader, a cursor class with `get_next` and `rewind`;
  - the `_int8` output name;
  - the method check;
  - which models `quantize_all_models` selects, and with which input size.

Shared pieces live in `Detections`:
- the box and detection types;
- the `"unknown"` class-name fallback;
- the response message ladder, which is the same text in both endpoints.

`Text` holds the string operations, including the data-URL prefix strip used by two of the entry points.

Confidences and tensor entries are `real`. Inference, image decoding,
downloads and the clock are outside the model. Their outcomes arrive as
parameters: an `InferenceOutcome` (boxes, or the text of the exception
raised), whether a download succeeded, the decoded tensor, and the
timestamp string.

## Model

| member | source | states |
|---|---|---|
| Text.StripDataUrlPrefix | backend/main_stateless.py:136-137 | A string without a comma is kept. Otherwise the result holds no comma and is the text right after the first comma, up to the next comma or the end (`s.split(',')[1]`). |
| Text.StripDataUrlRoundTrip | backend/onnx_detector.py:175-176 | A data URL `header,payload` whose parts hold no comma strips to exactly its payload. |
| Detections.Named | backend/main_stateless.py:175-183 | Every box yields one detection, in box order, labelled by `card_classes.get(id, "unknown")`. |
| Detections.MissingSides | backend/main_stateless.py:458-462 | "front" is listed iff the front was requested and not detected, and likewise "back". Nothing else is listed, and when both are listed, front comes first. |
| Detections.ResponseMessage | backend/main_stateless.py:450-466 | The message ladder as iffs: "Both…" iff both sides are detected and both images were provided; "front…" iff the front is detected and "Both…" does not apply; "back…" iff only the back is detected; otherwise the missing-sides text when some side was requested, and the generic text iff none was. |
| Detections.MissingText | backend/main_stateless.py:464 | The text starts with the "Could not detect Aadhaar card(s): " prefix. |
| Detections.MessageNamesMissingSides | backend/main_stateless.py:450-466 | When some side was requested, the message is one of the three success texts or starts with the missing-sides prefix, never the generic text. |
| Stateless.BestCardIsEarliestMaximum | backend/main_stateless.py:189-194 | The running maximum settles on a card box iff some card box at or above the threshold has confidence above 0.0. That box is the most confident card box, and no earlier card box equals it. |
| Stateless.DetectFromBytes | backend/main_stateless.py:163-200 | The loop proved against `ScansTo`: every box is logged in order; fraud iff some `print_aadhar` box is strictly above the threshold, with card matching continuing; detected iff the running maximum found a card box, and class and confidence are that box's; otherwise `class` is None and `confidence` is 0.0. An inference error gives the default result with the error text. |
| Stateless.OtherLabelMasksSlot | backend/main_stateless.py:236 | A card box of the other label that is more confident than every box of the slot's own label leaves the slot undetected. |
| Stateless.ProcessSlot | backend/main_stateless.py:228-244 | The image is decoded after its data-URL prefix is stripped. A slot is detected iff its best card box has the slot's label. Its confidence is that box's, or 0.0. Its fraud flag follows its own boxes. Its details are all its detections, or one decode-failure entry when the image did not decode. |
| Stateless.StatusOf | backend/main_stateless.py:265-278 | Fraud means rejected. Approved iff there is no fraud, both sides are detected and both confidences are at or above the low threshold. With both sides detected and no fraud, pending review iff either confidence is below the low threshold. Pending review needs no fraud and some detection. A single side is pending iff its confidence is below the low threshold. No detection means rejected. |
| Stateless.DetectCardsFromBase64 | backend/main_stateless.py:202-280 | The result satisfies `Classified`: each flag, confidence and details list is the one its own slot yields, fraud on either slot sets the flag, and the status is the ladder applied to these fields. A detected side's confidence is at or above the threshold and above 0.0. |
| Stateless.LowConfidenceReviewUnreachable | backend/main_stateless.py:265-278 | When the base threshold is at or above the low threshold, a combined result whose detected sides reach the base threshold is never pending review. |
| Stateless.DefaultThresholdsNeverPendReview | backend/main_stateless.py:53-54 | With the default thresholds 0.15 and 0.10, no classification of any two images is pending review. |
| Stateless.Route | backend/main_stateless.py:393-487 | Fraud returns the security violation and queues nothing. A force upload without both sides returns the review submission carrying the user id, both flags, both confidences and `both_detected` as front and back, and queues exactly one "Force upload" item. Otherwise the response is the completed one: its data carries the user id, flags, confidences, status and details of the result, `both_detected` needs both sides detected and both images supplied, `detected` is front or back, the message follows the ladder, and one "Low confidence detection" item is queued iff the status is pending review. |
| Stateless.PyAnd | backend/main_stateless.py:448 | Python's `and` is truthy iff both operands are; it yields the first operand when that one is falsy and the second otherwise. |
| Stateless.BothDetectedIsBackImage | backend/main_stateless.py:448 | With both images supplied and both sides detected, the `both_detected` expression as written evaluates to the back image's base64 text, not `true`. |
| Stateless.BothProvidedAndDetected | backend/main_stateless.py:448 | The boolean `both_detected` is true exactly when the written expression is truthy, and implies both sides detected and both images supplied. |
| Stateless.ReviewQueue.constructor | backend/main_stateless.py:332 | The queue starts empty. |
| Stateless.ReviewQueue.Add | backend/main_stateless.py:347-349 | Appends the item and changes nothing else. |
| Stateless.ReviewQueue.Listing | backend/main_stateless.py:497-507 | Lists the items in insertion order, with `count` equal to their number. |
| Stateless.DetectAadhaarCardsStateless | backend/main_stateless.py:378-487 | No image gives a 400 and leaves the queue untouched. Otherwise the response is `Route` applied to the classification of the two images at the request's threshold (or the configured default), and the queue grows by exactly the item the route produces. It is a security violation iff either image has a `print_aadhar` box above the threshold. |
| UrlDetector.MatchedMembers | backend/main.py:96-117 | A box is a match iff it is at or above the threshold and carries the side's label. A `print_aadhar` box is never a match. |
| UrlDetector.MatchedLastIsLastKept | backend/main.py:110-112 | The last match is the last box in box order that passes the side's test, so the reported confidence is the last match's and not the maximum. |
| UrlDetector.ScanStep | backend/main.py:96-112 | One more box extends the matches iff it passes the side's test, and raises fraud iff it is a `print_aadhar` box at or above the threshold. |
| UrlDetector.ScanBoxes | backend/main.py:96-117 | The loop proved against `Matched`: the details are exactly the matches in order; detected iff there is a match; the confidence is the last match's, or 0.0; fraud iff some `print_aadhar` box is at or above the threshold. |
| UrlDetector.ScanSide | backend/main.py:91-125 | No path gives nothing. A missing file gives one "not found" error entry. An inference exception gives one entry with its text. Otherwise the result is that of the box loop. |
| UrlDetector.DetectCards | backend/main.py:59-163 | Each side's fields follow its own path, and fraud on either side sets the flag. |
| UrlDetector.DetectAadhaarCards | backend/main.py:248-345 | No URL gives a 400, and only then. A failed download gives a 500 naming the URL, front first. Security violation iff some downloaded side has fraud, whatever was detected. A 200 iff some URL was supplied, every supplied URL downloaded and neither side has fraud; its sides follow the box loop, its `both_detected` needs both sides detected and downloaded, and its message follows the ladder. |
| OnnxDecoder.MaxOf | backend/onnx_detector.py:116 | The result is an element and no element exceeds it. |
| OnnxDecoder.IndexOf | backend/onnx_detector.py:117 | The first position holding the value. |
| OnnxDecoder.ClassIndex | backend/onnx_detector.py:111-117 | The class is an argmax of channels 4 to 6, and every lower class index scores strictly less: the lowest index wins ties. |
| OnnxDecoder.ScaleBox | backend/onnx_detector.py:133-146 | The scaled box's centre is the candidate's centre scaled by W/640 and H/640. Width and height keep their proportion of the image. |
| OnnxDecoder.RunningBestExists | backend/onnx_detector.py:126 | The running best exists iff some score is strictly above 0.25. |
| OnnxDecoder.RunningBestIsEarliestMaximum | backend/onnx_detector.py:126 | The running best is above 0.25, no score exceeds it, and every earlier score is strictly lower. |
| OnnxDecoder.BestUpToStep | backend/onnx_detector.py:126 | Candidate `n` replaces the best so far iff its score is above 0.25 and strictly above the current confidence, which starts at 0.0. |
| OnnxDecoder.BestUpToIsEarliestMaximum | backend/onnx_detector.py:98-147 | There is a detection iff some candidate scores above 0.25. It is then a maximal-score candidate, the earliest among equals. |
| OnnxDecoder.BestAfter | backend/onnx_detector.py:98-147 | A detection has a `card_type` from the class list and a confidence above 0.25. Without one, the result is detected false, type None, confidence 0.0 and bbox None. |
| OnnxDecoder.LoggedIsCandidatesAboveLogThreshold | backend/onnx_detector.py:119-124 | The log holds exactly the candidates whose max score is above 0.1, with their index, argmax class and score. |
| OnnxDecoder.LoggedInCandidateOrder | backend/onnx_detector.py:109-124 | The unsorted log is in strictly increasing candidate order. |
| OnnxDecoder.Swap | backend/onnx_detector.py:150 | Exchanges two entries and keeps the multiset. |
| OnnxDecoder.InsertAt | backend/onnx_detector.py:150 | From a sorted prefix, the next entry is moved into place. The prefix one longer is sorted, the multiset is unchanged, the rest of the array is untouched, and no prefix index exceeds the inserted entry's. |
| OnnxDecoder.SortByScoreDescending | backend/onnx_detector.py:150 | In place, the array becomes a permutation of itself in which scores never increase and equal scores keep candidate order, which is what Python's stable `sort(reverse=True)` gives. |
| OnnxDecoder.ReadClassScores | backend/onnx_detector.py:111-114 | The inner loop reads channels 4, 5 and 6 of the candidate, in order. |
| OnnxDecoder.ScanCandidate | backend/onnx_detector.py:109-146 | One pass of the loop takes the best detection and the log from the first `i` candidates to the first `i + 1`. |
| OnnxDecoder.ScanCandidates | backend/onnx_detector.py:109-146 | After the loop, the best detection is `BestAfter` and the log is `Logged`, over all candidates. |
| OnnxDecoder.SortedCopy | backend/onnx_detector.py:150 | The log comes back sorted and as a permutation of itself. |
| OnnxDecoder.Detect | backend/onnx_detector.py:92-156 | An error iff there are candidates but fewer than seven channels. Otherwise the best detection is the earliest maximal candidate above 0.25 with its scaled box, and the log is sorted and holds exactly the candidates above 0.1. |
| OnnxDecoder.DetectFromBase64 | backend/onnx_detector.py:170-187 | The data-URL prefix is stripped before decoding. An undecodable image is an error, and otherwise the result is that of `Detect`. |
| Quantize.CalibrationDataReader.constructor | backend/quantize_to_int8.py:59-62 | The reader keeps the samples and the input name, with the cursor at 0. |
| Quantize.CalibrationDataReader.GetNext | backend/quantize_to_int8.py:64-69 | Past the end, returns None and leaves the cursor. Otherwise returns `{input_name: data[index]}` and advances the cursor by exactly one. |
| Quantize.CalibrationDataReader.Rewind | backend/quantize_to_int8.py:71-72 | The cursor returns to 0, so the next call yields the first sample again. |
| Quantize.Drain | backend/quantize_to_int8.py:64-69 | Calling `get_next` until None yields every remaining sample in order and leaves the cursor at the end, after which calls return None. |
| Quantize.StemDropsLastSuffix | backend/quantize_to_int8.py:280 | The stem is a prefix of the name. A dot that is neither the first nor the last character, with no dot after it, cuts the stem there; otherwise the stem is the name. |
| Quantize.OutputModelNaming | backend/quantize_to_int8.py:280-281 | The output file is `stem + "_int8.onnx"` in the output directory. Its stem is the input's stem plus `_int8`, and a later selection skips it. |
| Quantize.ParseMethod | backend/quantize_to_int8.py:284-292 | "dynamic" and "static" are the only accepted methods; any other name is an error. |
| Quantize.PlanQuantization | backend/quantize_to_int8.py:251-292 | Input and output default to the models directory. A missing input model is the first error, an unknown method the second, and both exit. Otherwise the job names the input, the `_int8` output, the method and the size. |
| Quantize.SelectModelsMembers | backend/quantize_to_int8.py:360-362 | A listing entry is selected iff it ends in `.onnx` and its stem holds no `_int8`. |
| Quantize.SelectModelsAppend | backend/quantize_to_int8.py:360-362 | Selection over a listing split in two is the concatenation of the selections. |
| Quantize.SelectionIgnoresOutputs | backend/quantize_to_int8.py:362 | Adding the quantised outputs to the directory does not change which models are selected. |
| Quantize.NoOutputSelected | backend/quantize_to_int8.py:362 | No quantised output name is ever selected. |
| Quantize.QuantizeAllModels | backend/quantize_to_int8.py:356-382 | One dynamic job per selected model, in listing order, into the models directory, at 320 when the stem holds "small" and 640 otherwise. |
| Quantize.PlanForListedModel | backend/quantize_to_int8.py:373-382 | A listed model passes both checks of `quantize_model`, and its plan is the listed job. |

## Left out

- HTTP and auth: the FastAPI app, CORS, JWT verification, the 503 "detector not initialised" responses, the health and info endpoints, and uvicorn.
- The catch-all 500 of the stateless endpoint. Only exceptions that the code raises on purpose are modelled.
- Model runtimes: YOLO, ONNX Runtime sessions and torch device selection. Their output is a parameter.
- Image handling: `cv2.imdecode`/`imread`, `base64.b64decode` and `preprocess`. Decoding is a function parameter applied to the payload after the data-URL prefix strip.
- Downloads, temporary directories, cleanup, the md5 `task_id` and timestamps. Their outcomes are parameters. Path joins are modelled as `/` concatenation on normalised paths.
- Concurrency: `asyncio.to_thread`, and the background task that enqueues review items. An enqueue is modelled as an immediate append.
- `Stateless.DetectFromBytes`, `UrlDetector.ScanSide`: an inference that raises is modelled as raising before any box is read. A failure part-way through the box loop is not modelled.
- `OnnxDecoder.Detect`: float32 rounding and NaN scores are not modelled, because scores are reals. The log list is returned so that its properties can be stated, although the source only prints its top five. The batch dimension of the tensor is dropped.
- `OnnxDecoder.DetectFromBase64`: `detect_from_file` is left out. Both the `ValueError` for an undecodable image and a `b64decode` failure become `UndecodableImage`.
- `Quantize.PlanQuantization`: `install_dependencies`, `mkdir`, the ONNX Runtime quantisation calls, calibration data creation, `verify_model`, benchmarking, size comparison and `model_info.json` are not modelled. The plan stops at the quantisation call.
- `Quantize.StemDropsLastSuffix`: follows `Path.stem` on names with no trailing slash. Newer Python releases treat a trailing dot differently.
- `Quantize.QuantizeAllModels`: the glob's order is the order of the given listing.
- The conversion scripts (`convert_to_onnx.py`, `convert_best_to_onnx.py`, `convert_best2_to_onnx.py`) and `test.py` only call library exporters and plotting. They are not part of this model.
- Logging and `print` output throughout.

Two consequences of the code as written (`backend/main_stateless.py:265-278`), which the model keeps:
- In the stateless ladder, a single detected side whose confidence is at or above the low threshold keeps the default status, rejected, even though the message reports a detection.
- The comment at `backend/main_stateless.py:275` speaks of a low-confidence single card going to review. Because a detected side's confidence is at or above the base threshold, that review cannot happen while the base threshold is at or above the low one. `Stateless.LowConfidenceReviewUnreachable` and `Stateless.DefaultThresholdsNeverPendReview` prove this.

## Findings

| source | as written | input that shows it | evidently intended | confidence | as-written member | corrected member |
|---|---|---|---|---|---|---|
| backend/main_stateless.py:448 | `both_detected = front_ok and back_ok and request.front_image and request.back_image` evaluates to the last operand, so the response field carries the back image's base64 text | both images supplied as non-empty strings and both sides detected: `both_detected` is the back image string, not `true` | a boolean: both sides detected and both images supplied | not executed | Stateless.BothDetectedIsBackImage | Stateless.BothProvidedAndDetected |

# play_with_tflite post-processing, modelled in Dafny

This project models the C++ post-processing code that the play_with_tflite
demos share around their TensorFlow Lite models: what happens to the
output tensors after inference, and the small state machines of the demo
front-ends. Each Dafny module follows one part of the repository:

- `AreaSelection` (`area_selector.dfy`): the AR probe's gesture
  area selector. It has three states (INIT, DRAG, SELECTED), a counter of
  untrusted hands and a chattering filter on the finger-pose verdict. The
  classifier `checkIfPointing` is an input with values -1, 0 or 1.
- `TensorsToDetections` (`tensors_to_detections.dfy`): the MediaPipe
  "tensors to detections" calculator. It decodes the box regressor
  against the SSD anchors, takes the first best class of every box and
  keeps the boxes whose score reaches the threshold.
- `PalmNms` (`nms.dfy`): the greedy non-maximum suppression. It sorts the
  list in place, keeps an `is_merged` flag array and merges same-class
  boxes with IoU above 0.5. It also holds the IoU of the palm engines.
- `PalmEngines` (`palm_engines.dfy`): the four palm detection engines.
  This covers the engine lifecycle, the output-shape checks and the
  conversion of each detection into a rotated square palm clamped to the
  image.
- `HandImageProcessing` (`hand_image_processor.dfy`): the hand and AR
  probe front-ends. This covers `Rect::fix`, the engine lifecycle and
  `Command`, the choice between palm detection and the palm estimated
  from the landmarks, `CalcAverageRect`, the selected-area clamp and the
  pruning of lost object trackers.
- `Tracking` (`tracking.dfy`): what the five object trackers share. A
  track is a bounded history with detected and undetected counters. This
  module holds the greedy first-best pick, the erase loop, the cost gate
  on the solver's assignment and the spawning of new tracks with
  consecutive ids. `WellNumbered`, the invariant every tracker keeps, says
  that ids are distinct and below the next id and that histories stay
  within their bound.
- `Yolov5TrackingTracker`, `YoloxTracker`, `BlazefaceTracker`,
  `Yolov5Tracker` and `DeepSortTracker` (`tracker_*.dfy`): the five
  trackers. The first two match greedily on IoU. The other three gate the
  Hungarian solver's answer with a cost matrix; the DeepSORT cost mixes
  IoU with the cosine similarity of appearance features. The Kalman
  filters and the solver are inputs: one filter estimate per track and
  call, and the solver's assignment vector.
- `InferenceHelper` (`inference_helper.dfy`): the engine-independent part of
  the inference helper. This covers the `create` factory, the
  dequantisation in `TensorInfo::getDataAsFloat`, the NHWC/NCHW
  transposition, the normalisation and the folding of mean and norm in
  `convertNormalizeParameters`.
- `TfliteHelper`, `TensorRtHelper`, `MnnHelper`, `NcnnHelper` and
  `OpenCvHelper` (`helper_*.dfy`): the five back ends. Each one matches
  the caller's tensor descriptions against the model's tensors in
  `initialize`, decides in `preProcess` how each input reaches the
  engine, and reads the output descriptions back in `invoke`. Where the
  source moves data in a loop (normalising, permuting, copying), the
  model does the same on arrays and proves the result equal to a
  function of the input. The engines' own tensors, bindings, layers and
  extracted mats are inputs of the model.
- `CropResize` (`crop_resize.dfy`): the crop-rectangle arithmetic of
  `CommonHelper::CropResizeCvt` in its Stretch, Cut and Expand modes, and
  the clamp each engine applies to the crop it reports. The resize and
  colour conversion themselves are OpenCV calls.
- `Detections` (`detections.dfy`): the `BoundingBox` record and the two
  ways the engines pick the best class of a score vector:
  `std::max_element` and a running maximum.
- `GridDecoding` (`grid_decoding.dfy`): the record decoder the YOLOv5,
  DroNet and FastestDet engines share. A record becomes a box when both
  its box confidence and its best class confidence pass their thresholds.
- `EngineInit` (`engine_init.dfy`): the input-tensor check the SSD and
  DeepLab engines make after initialising their helper.
- `Yolov5Detection`, `DroNetDetection`, `FastestDetDetection`,
  `NanoDetDetection`, `BlazeFaceDetection`, `DBFaceDetection`,
  `SsdDetection`, `HybridNetsDetection` and `CenterNetPose`
  (`det_*.dfy`, `face_*.dfy`, `pose_centernet.dfy`): the detection
  engines' post-processing. This covers the crop each engine uses, the
  per-cell or per-anchor decoding of the output tensors, the threshold,
  and the adjustment of the boxes NMS keeps back to the image. Where an
  engine stores an index in a box to find its keypoints after NMS, the
  model proves that the index can still be read.
- `PaddleSegSegmentation`, `RvmSegmentation` and `DeepLabSegmentation`
  (`seg_*.dfy`): the segmentation engines. This covers the per-class maps,
  the per-pixel argmax and the DeepLab palette.
- `CameraCalibration` (`camera_calibration.dfy`): the DeepCalib engine.
  This covers the class lists built at start-up, the argsort in
  `GetMaxIndex` and both result variants.
- `LaneEngine` (`lane_engine.dfy`): the LaneNet engine. This covers the
  binary mask, the gathering of the set pixels with their embeddings, the
  shuffle, and the normalisation of the embeddings by their mean and
  standard deviation. DBSCAN and `sqrt` are parameters.
- `StyleTransfer` and `StyleTransferLegacy` (`style_transfer*.dfy`): the
  two style transfer front-ends. This covers the command that selects a
  style file, the loading of its bottleneck, and the schedule on which the
  frame's bottleneck is merged with the style's. The two engines and the
  image reader are parameters.

Floats are modelled as reals. Integer casts from float are truncations
toward zero (`Common.Trunc`), and C division is modelled by
`Common.CDiv`. The numeric kernels the code calls are parameters of the
model: `exp`, the sigmoid, `atan2`, `cos` and `sin`. So are outputs of
foreign code: the tensors, the landmark result, the finger-pose verdict
and the OpenCV tracker updates. Each operation that changes state step by
step is a method or a class whose contract ties its result to a
specification function. The properties the code promises are lemmas
about those functions.

## Model

| member | source | states |
|---|---|---|
| AreaSelection.AreaSelector.Current | pj_tflite_arprobe/image_processor/area_selector.cpp:39-45 | a new selector is in INIT, both counters are 0, the debounced finger status is -1 and the debounce limit is 5 |
| AreaSelection.AreaSelector.Legacy | pj_tflite_arprobe/ImageProcessor/AreaSelector.cpp:38-44 | the older selector starts in the same state, with debounce limit 10 |
| AreaSelection.AreaSelector.RemoveChattering | pj_tflite_arprobe/image_processor/area_selector.cpp:105-121 | the filter fields change as `Debounce` says, and the result is -1 for input -1 and otherwise the stored debounced value |
| AreaSelection.AreaSelector.Run | pj_tflite_arprobe/image_processor/area_selector.cpp:49-101 | the new selector state is `RunStep` of the old one, covering the untrusted counter, the forced INIT, the area and the transitions |
| AreaSelection.InitialStateInv | pj_tflite_arprobe/image_processor/area_selector.cpp:39-45 | the initial state satisfies the selector invariant, with status INIT and finger status -1 |
| AreaSelection.RunStepInv | pj_tflite_arprobe/image_processor/area_selector.cpp:53-99 | for verdicts in {-1, 0, 1} `run` keeps the invariant: counters non-negative, chatter count at most the limit, finger status in {-1, 0, 1} |
| AreaSelection.DebounceOutput | pj_tflite_arprobe/image_processor/area_selector.cpp:105-121 | the output is -1 for input -1 and otherwise the stored value; the stored value is the old one or the input; a matching input clears the counter |
| AreaSelection.DebounceAdopts | pj_tflite_arprobe/image_processor/area_selector.cpp:105-115 | a different value is adopted exactly on the call on which the mismatch count would exceed the limit, and the counter then restarts at 0; before that the count only grows |
| AreaSelection.DebounceStable | pj_tflite_arprobe/ImageProcessor/AreaSelector.cpp:104-115 | repeating the stored value keeps it and leaves the counter at 0 |
| AreaSelection.UntrustedHandKeepsFilter | pj_tflite_arprobe/image_processor/area_selector.cpp:53-59 | with handflag at most 0.9 the filter is untouched and the untrusted counter grows by one |
| AreaSelection.StatusTransitions | pj_tflite_arprobe/image_processor/area_selector.cpp:61-99 | INIT goes to DRAG on 1, DRAG goes to SELECTED on 0 and stays on 1, SELECTED always goes back to INIT, and more than 10 untrusted calls force INIT |
| AreaSelection.DragAreaSpans | pj_tflite_arprobe/image_processor/area_selector.cpp:84-92 | the dragged area spans the start point and landmark 8, with non-negative size |
| AreaSelection.UntrustedRunForcesInit | pj_tflite_arprobe/ImageProcessor/AreaSelector.cpp:60-69 | a run of untrusted hands that takes the counter past 10 ends in INIT with the area zeroed |
| TensorsToDetections.DefaultOptionsWellFormed | pj_tflite_arprobe/image_processor/meidapipe/tflite_tensors_to_detections_calculator.cc:44-106 | the palm options place four box values and seven keypoint pairs in 18 slots with no overlap |
| TensorsToDetections.FlatDivMod | pj_tflite_arprobe/image_processor/meidapipe/tflite_tensors_to_detections_calculator.cc:58-61 | the flat index i * n + c gives back record i and slot c |
| TensorsToDetections.DecodeBoxes | pj_tflite_arprobe/image_processor/meidapipe/tflite_tensors_to_detections_calculator.cc:44-106 | returns -1 and leaves the buffer alone when its size is not numBoxes * numCoords or the anchor count is not numBoxes; otherwise returns 0 with the buffer equal to `DecodedBuffer` |
| TensorsToDetections.WriteCorners | pj_tflite_arprobe/image_processor/meidapipe/tflite_tensors_to_detections_calculator.cc:79-87 | the four corner writes put ymin, xmin, ymax, xmax at the head of the record and touch nothing else |
| TensorsToDetections.RecordIsDecoded | pj_tflite_arprobe/image_processor/meidapipe/tflite_tensors_to_detections_calculator.cc:55-102 | a record whose slots hold their values after every keypoint write agrees with the decoded buffer on that record |
| TensorsToDetections.KeypointHolds | pj_tflite_arprobe/image_processor/meidapipe/tflite_tensors_to_detections_calculator.cc:89-101 | with a disjoint layout, keypoint k's scaled (x, y) sits at keypoint_coord_offset + k * num_values_per_keypoint and the slot after it |
| TensorsToDetections.DecodedRecordHolds | pj_tflite_arprobe/image_processor/meidapipe/tflite_tensors_to_detections_calculator.cc:58-102 | record i holds ymin, xmin, ymax, xmax of the decoded box and keypoint k's (x, y) at keypoint_coord_offset + k * num_values_per_keypoint, read swapped when reverse_output_order is set |
| TensorsToDetections.CornersSpanCentre | pj_tflite_arprobe/image_processor/meidapipe/tflite_tensors_to_detections_calculator.cc:79-87 | xmax - xmin is the width and ymax - ymin the height around the centre, so ymin <= ymax exactly when h >= 0 |
| TensorsToDetections.ConvertRecord | pj_tflite_arprobe/image_processor/meidapipe/tflite_tensors_to_detections_calculator.cc:114-137 | the detection built from record i is `DetectionAt` of that record: score, class, x = xmin, y = ymin, w = xmax - xmin, h = ymax - ymin and the keypoints |
| TensorsToDetections.ConvertToDetections | pj_tflite_arprobe/image_processor/meidapipe/tflite_tensors_to_detections_calculator.cc:109-141 | the output is `Converted`, the detections of the records whose score is not below min_score_thresh |
| TensorsToDetections.ReadKeypoints | pj_tflite_arprobe/image_processor/meidapipe/tflite_tensors_to_detections_calculator.cc:126-135 | the keypoint loop steps by num_values_per_keypoint and yields the record's keypoints in order |
| TensorsToDetections.ConvertedArePassing | pj_tflite_arprobe/image_processor/meidapipe/tflite_tensors_to_detections_calculator.cc:114-138 | the output, in box order, is exactly one detection per record with score >= min_score_thresh, with x = xmin, y = ymin, w = xmax - xmin and h = ymax - ymin |
| TensorsToDetections.BestClass | pj_tflite_arprobe/image_processor/meidapipe/tflite_tensors_to_detections_calculator.cc:153-176 | the class loop yields the running maximum `ArgMax` over all classes |
| TensorsToDetections.ArgMaxIsFirstMax | pj_tflite_arprobe/image_processor/meidapipe/tflite_tensors_to_detections_calculator.cc:153-177 | the class is the first one of maximal (optionally sigmoided) score; it is -1 with score -FLT_MAX exactly when no class scores above -FLT_MAX, in particular when there are no classes |
| TensorsToDetections.Process | pj_tflite_arprobe/image_processor/meidapipe/tflite_tensors_to_detections_calculator.cc:145-181 | the result is `ProcessResult`: decode, best class per box, then the threshold |
| TensorsToDetections.DetectionBoxOfDecoded | pj_tflite_arprobe/image_processor/meidapipe/tflite_tensors_to_detections_calculator.cc:79-87 | with matching anchors a detection's x, y, w and h are the decoded box's corner and size |
| TensorsToDetections.DetectionKeypointsOfDecoded | pj_tflite_arprobe/image_processor/meidapipe/tflite_tensors_to_detections_calculator.cc:89-101 | with matching anchors a detection's keypoints are the decoded keypoints |
| TensorsToDetections.DetectionOfDecodedBox | pj_tflite_arprobe/image_processor/meidapipe/tflite_tensors_to_detections_calculator.cc:145-181 | with matching anchors a detection carries the decoded box's corner, size and keypoints |
| TensorsToDetections.DetectionOfUndecodedBox | pj_tflite_arprobe/image_processor/meidapipe/tflite_tensors_to_detections_calculator.cc:146-147 | with mismatched anchors the ignored -1 of DecodeBoxes leaves every detection with a zero box and zero keypoints |
| TensorsToDetections.ProcessDetection | pj_tflite_arprobe/image_processor/meidapipe/tflite_tensors_to_detections_calculator.cc:145-181 | every detection is the detection of some box whose first-max class and score it carries, and its score reaches the threshold |
| PalmNms.IoUAsWrittenOverlapsDisjointBoxes | pj_tflite_hand_mediapipe/image_processor/palm_detection_engine.cpp:283-296 | as written, two disjoint unit boxes (0,0)-(1,1) and (2,2)-(3,3) get IoU 1, so one suppresses the other |
| PalmNms.IoUAsWrittenSymmetric | pj_tflite_hand_mediapipe/image_processor/palm_detection_engine.cpp:283-296 | CalculateIoU as written is symmetric in its arguments |
| PalmNms.Overlap | pj_tflite_arprobe/image_processor/palm_detection_engine.cpp:291-304 | the clamped overlap of two intervals is in [0, min width] and positive exactly when the intervals meet |
| PalmNms.IoUProperties | pj_tflite_hand_mediapipe/image_processor/palm_detection_engine.cpp:283-296 | the clamped IoU is symmetric, lies in [0, 1] for non-negative sizes and is 0 for boxes apart on an axis |
| PalmNms.MergedIff | pj_tflite_hand_mediapipe/image_processor/palm_detection_engine.cpp:306-320 | is_merged[j] is set by the time the outer loop reaches k exactly when an earlier anchor of the same class has IoU above 0.5 with d[j] |
| PalmNms.KeptIff | pj_tflite_hand_mediapipe/image_processor/palm_detection_engine.cpp:308-312 | a detection becomes an anchor exactly when no earlier anchor absorbs it |
| PalmNms.MergedNeverKept | pj_tflite_arprobe/image_processor/palm_detection_engine.cpp:316-327 | a merged detection is never an anchor |
| PalmNms.UnweightedOutputIsAnchors | pj_tflite_hand_mediapipe/image_processor/palm_detection_engine.cpp:349-351 | without weighting the output is the anchors themselves, in sorted order: a subsequence of the sorted input |
| PalmNms.UnweightedOutputSeparated | pj_tflite_arprobe/image_processor/palm_detection_engine.cpp:316-360 | without weighting, any two output boxes of the same class have IoU at most 0.5, in both orders |
| PalmNms.DroppedHasAnchor | pj_tflite_arprobe/ImageProcessor/PalmDetectionEngine.cpp:308-327 | every detection that is not emitted was absorbed by an earlier anchor of its class |
| PalmNms.Candidates | pj_tflite_hand_mediapipe/image_processor/palm_detection_engine.cpp:309-320 | an anchor's candidate list starts with the anchor and holds the detections it absorbs |
| PalmNms.CandidatesKeypoints | pj_tflite_hand_mediapipe/image_processor/palm_detection_engine.cpp:324-335 | all candidates of an anchor have as many keypoints as the anchor when the input does |
| PalmNms.WeightedMerge | pj_tflite_hand_mediapipe/image_processor/palm_detection_engine.cpp:322-348 | the merged box has class 0, the mean score and as many keypoints as the first candidate |
| PalmNms.WeightedMergeBetween | pj_tflite_hand_mediapipe/image_processor/palm_detection_engine.cpp:327-346 | with positive scores, each score-weighted mean coordinate lies between the least and greatest candidate value |
| PalmNms.WeightedMergeX | pj_tflite_hand_mediapipe/image_processor/palm_detection_engine.cpp:330-340 | the merged x lies between the candidates' least and greatest x |
| PalmNms.SortDescending | pj_tflite_hand_mediapipe/image_processor/palm_detection_engine.cpp:300-304 | the array ends sorted by the key (area w*h or score) in descending order and is a permutation of its old contents |
| PalmNms.Absorb | pj_tflite_hand_mediapipe/image_processor/palm_detection_engine.cpp:311-320 | the inner loop returns the anchor's candidates and sets is_merged for exactly the absorbed detections |
| PalmNms.Accumulate | pj_tflite_hand_mediapipe/image_processor/palm_detection_engine.cpp:324-338 | the accumulation loop yields the score sum and, for the box and every keypoint, the score-weighted sums over the candidates |
| PalmNms.ScaleKeypoints | pj_tflite_hand_mediapipe/image_processor/palm_detection_engine.cpp:344-347 | every keypoint sum is divided by the score sum, and the keypoint count is unchanged |
| PalmNms.MergeCandidates | pj_tflite_hand_mediapipe/image_processor/palm_detection_engine.cpp:324-348 | the accumulation loop yields `WeightedMerge` of the candidates |
| PalmNms.Visit | pj_tflite_hand_mediapipe/image_processor/palm_detection_engine.cpp:308-353 | one pass of the outer loop skips a merged detection, and an anchor appends its `Emit` output: itself, or with weighting the merge of at least 3 candidates; is_merged then reflects the anchors up to this index |
| PalmNms.Nms | pj_tflite_hand_mediapipe/image_processor/palm_detection_engine.cpp:298-355 | the list ends sorted descending and permuted, and the output is `NmsOutput` of the sorted list: anchors, or merged groups of at least 3 when weighting |
| PalmNms.SortKeepsKeypointCount | pj_tflite_hand_mediapipe/image_processor/palm_detection_engine.cpp:300-304 | a permutation keeps the number of keypoints of every element |
| PalmEngines.NormalizeRadiansRange | pj_tflite_hand_mediapipe/image_processor/palm_detection_engine.cpp:265-281 | the normalised angle lies in [-pi, pi) |
| PalmEngines.CalculateRotation | pj_tflite_hand_mediapipe/image_processor/palm_detection_engine.cpp:265-281 | the rotation from keypoint 0 to keypoint 2 lies in [-pi, pi) |
| PalmEngines.TransformRectIsSquare | pj_tflite_hand_mediapipe/image_processor/palm_detection_engine.cpp:237-262 | the transformed rectangle is a square of side 2.6 times the longer side, centred on the shifted centre, which without rotation is half a box height above the box centre |
| PalmEngines.ClampPalm | pj_tflite_hand_mediapipe/image_processor/palm_detection_engine.cpp:214-221 | x is in [0, W] with width in [0, W - x], the same for y and height, and a square already inside is kept |
| PalmEngines.ScaleAsWritten | pj_tflite_hand_mediapipe/image_processor/palm_detection_engine.cpp:193-203 | as written, the range-for over copies leaves the keypoints unscaled |
| PalmEngines.RotationUsesUnscaledKeypoints | pj_tflite_hand_mediapipe/image_processor/palm_detection_engine.cpp:193-206 | on a 200x100 image a tilted palm's rotation vector is (-0.5, 0.5) as written but (-50, 100) with scaled keypoints |
| PalmEngines.Scale | pj_tflite_hand_mediapipe/image_processor/palm_detection_engine.cpp:193-203 | the scaled detection's keypoints are each (x * W, y * H) |
| PalmEngines.ScaledRotationVector | pj_tflite_hand_mediapipe/image_processor/palm_detection_engine.cpp:199-206 | with scaled keypoints the rotation vector is the normalised one stretched by H and W |
| PalmEngines.LegacyPalmScoreLost | pj_tflite_hand_mediapipe/ImageProcessor/PalmDetection.cpp:166-167 | the shadowed PALM copies its own indeterminate score, which can differ from the detection's score; the corrected palm carries the detection's score |
| PalmEngines.PalmInImage | pj_tflite_arprobe/image_processor/palm_detection_engine.cpp:201-238 | each palm lies inside the image, carries its detection's score and has a rotation in [-pi, pi) |
| PalmEngines.MakePalms | pj_tflite_hand_mediapipe/image_processor/palm_detection_engine.cpp:192-223 | the palm loop yields `PalmOf` of each detection, in order, with the as-written scaling that leaves the keypoints normalised |
| PalmEngines.CheckInputTensors | pj_tflite_arprobe/ImageProcessor/PalmDetectionEngine.cpp:105-111 | succeeds exactly when every input tensor has positive width and height and a set type |
| PalmEngines.PalmDetectionEngine.constructor | pj_tflite_hand_mediapipe/image_processor/palm_detection_engine.cpp:56-109 | a new engine has no helper and no anchors |
| PalmEngines.PalmDetectionEngine.Initialize | pj_tflite_arprobe/image_processor/palm_detection_engine.cpp:42-118 | the legacy engine reports success whatever the helper reports and then holds a helper and the generated anchors; the other engines succeed exactly when creation, thread count, custom ops, helper initialisation and (arprobe) the input check succeed, and hold a helper and the anchors exactly then |
| PalmEngines.PalmDetectionEngine.Finalize | pj_tflite_hand_mediapipe/image_processor/palm_detection_engine.cpp:112-120 | fails exactly when no helper exists |
| PalmEngines.PalmDetectionEngine.Process | pj_tflite_hand_mediapipe/image_processor/palm_detection_engine.cpp:123-233 | no helper is an error; a failed inference is an error except in the legacy engine, which ignores the status; mismatched output dims are an error (an abort in the legacy engine); otherwise the palms are `PalmOf` (box scaled, keypoints left normalised, as written) of the NMS output, under the unclamped `IoUAsWritten`, of a descending sort of the decoded detections |
| HandImageProcessing.FixAsWritten | pj_tflite_arprobe/image_processor/image_processor.cpp:58-66 | as written, x is in [0, W], sizes are non-negative, the rotation is kept, and x + width <= W holds only when x >= 0 |
| HandImageProcessing.FixAsWrittenLeavesImage | pj_tflite_hand_mediapipe/image_processor/image_processor.cpp:55-63 | as written, a rectangle at x = -10 of width 105 in a 100-wide image is fixed to x = 0 and reaches x = 105 |
| HandImageProcessing.Fix | pj_tflite_arprobe/ImageProcessor/ImageProcessor.cpp:43-51 | the corrected clamp keeps the rectangle inside the image and leaves a rectangle that already fits unchanged |
| HandImageProcessing.FixAgreesForNonNegativeOrigin | pj_tflite_hand_mediapipe/ImageProcessor/ImageProcessor.cpp:40-48 | both clamps agree whenever the origin is not left of or above the image |
| HandImageProcessing.FixIdempotent | pj_tflite_hand_mediapipe/image_processor/image_processor.cpp:55-63 | fixing twice is fixing once |
| HandImageProcessing.BlendBetween | pj_tflite_arprobe/image_processor/image_processor.cpp:432-436 | a blend with ratio in [0, 1] lies between the stored and the new value |
| HandImageProcessing.AverageFirstTime | pj_tflite_arprobe/image_processor/image_processor.cpp:426-437 | with stored width 0 the new rectangle is copied, truncated |
| HandImageProcessing.AverageFixedPoint | pj_tflite_hand_mediapipe/image_processor/image_processor.cpp:223-235 | averaging with an estimate equal to the stored rectangle leaves it unchanged |
| HandImageProcessing.AverageBetween | pj_tflite_hand_mediapipe/ImageProcessor/ImageProcessor.cpp:204-216 | after the first estimate, the smoothed x and width lie between the truncated stored and new values |
| HandImageProcessing.ChoosePalm | pj_tflite_hand_mediapipe/image_processor/image_processor.cpp:150-179 | detection uses only the first palm and clears the stored width; no palm means no landmark run; otherwise the stored estimate is reused |
| HandImageProcessing.ClampArea | pj_tflite_arprobe/image_processor/image_processor.cpp:345-349 | the selected area has x in [0, cols] and width at most cols - x, at least 1 when x < cols, the same for y; an area inside is kept |
| HandImageProcessing.ChooseTracker | pj_tflite_arprobe/ImageProcessor/ImageProcessor.cpp:367-372 | the legacy demo picks MEDIAN_FLOW exactly when the area exceeds 10% of the image, KCF otherwise; the current demo sets no tracker |
| HandImageProcessing.TrackStep | pj_tflite_arprobe/image_processor/image_processor.cpp:385-414 | a success clears the miss count and drops an object wider than 0.9 * cols; a failure increments it and drops the object once it exceeds 20 |
| HandImageProcessing.PrunedProperties | pj_tflite_arprobe/ImageProcessor/ImageProcessor.cpp:386-416 | the list never grows, every survivor has at most 20 misses, and every survivor is the updated form of some object of the list |
| HandImageProcessing.LostObjectDropped | pj_tflite_arprobe/ImageProcessor/ImageProcessor.cpp:408-416 | an object with 20 misses is dropped on the next failure and one with fewer survives it |
| HandImageProcessing.ImageProcessor.constructor | pj_tflite_arprobe/image_processor/image_processor.cpp:77-86 | no engine exists, debug is on, the frame count is 0, no palm estimate is valid, no objects are tracked and the area selector is in its initial state |
| HandImageProcessing.ImageProcessor.Initialize | pj_tflite_arprobe/image_processor/image_processor.cpp:196-219 | refused with -1, changing nothing, when any engine exists; otherwise the engines are created in turn, each kept even if its initialisation fails, and the result is 0 exactly when all succeed |
| HandImageProcessing.ImageProcessor.Finalize | pj_tflite_hand_mediapipe/image_processor/image_processor.cpp:107-124 | refused with -1 when not initialized or when an engine fails to finalise; otherwise every engine is destroyed and the result is 0 |
| HandImageProcessing.ImageProcessor.Command | pj_tflite_arprobe/image_processor/image_processor.cpp:245-261 | command 0 toggles the debug flag and returns 0 in the AR probe demos; every other command, and every command of the hand demos, returns -1 |
| HandImageProcessing.ImageProcessor.UpdateObjects | pj_tflite_arprobe/image_processor/image_processor.cpp:383-416 | the erase loop leaves `Pruned` of the old list |
| HandImageProcessing.ImageProcessor.SelectArea | pj_tflite_arprobe/image_processor/image_processor.cpp:341-381 | the selector runs; with handflag >= 0.8 its area is clamped, and a selection appends a tracked object with no misses |
| HandImageProcessing.ImageProcessor.Process | pj_tflite_arprobe/image_processor/image_processor.cpp:264-424 | refused with -1 when not initialized; otherwise the frame count grows, palm detection runs as `RunsPalmDetection` says, the landmark model runs on the palm as `Rect::fix` clamps it as written (`FixAsWritten`), and the estimate becomes valid exactly when handflag >= 0.8 |
| HandImageProcessing.DetectionSchedule | pj_tflite_arprobe/image_processor/image_processor.cpp:271-278 | detection runs whenever the estimate is invalid, and in the AR probe demos also on every 5th frame; the hand demos never run it with a valid estimate |
| HandImageProcessing.LandmarkRectInImage | pj_tflite_hand_mediapipe/image_processor/image_processor.cpp:179 | the landmark model runs on a rectangle whose origin lies in the image and whose sizes are non-negative; when the chosen palm's origin is not left of or above the image the rectangle lies inside the image and equals the corrected clamp |
| Tracking.NewTrack | pj_tflite_face_blazeface/image_processor/tracker.cpp:32-44 | a new track holds the one given entry, carries the given id, one detection and no miss |
| Tracking.Starts | pj_tflite_face_blazeface/image_processor/tracker.cpp:34-36 | each detection starts a track whose box and raw box are both the detection |
| Tracking.Placed | pj_tflite_face_blazeface/image_processor/tracker.cpp:54-60 | a box moved to a filter estimate takes the estimate's position and size and keeps its class and score |
| Tracking.FromCentre | pj_tflite_det_yolov5_tracking/image_processor/tracker.cpp:99-102 | the corner is the filtered centre minus half the side in integer division, so the centre stays inside a box of non-negative size |
| Tracking.PushBoundedKeepsNewest | pj_tflite_face_blazeface/image_processor/tracker.cpp:65-68 | pushing onto a history of at most cap entries puts the new entry last, pops exactly the oldest one when the history was full, and keeps at most cap entries |
| Tracking.SetLatest | pj_tflite_face_blazeface/image_processor/tracker.cpp:81-89 | only the newest history entry changes, to the given one, and the length is kept |
| Tracking.PickIsFirstMax | pj_tflite_det_yolox/image_processor/tracker.cpp:186-195 | the greedy scan picks the first allowed detection of maximal similarity strictly above the floor, and -1 with the floor exactly when no allowed similarity exceeds it |
| Tracking.PickBest | pj_tflite_det_yolox/image_processor/tracker.cpp:186-195 | the running-maximum loop yields the index `Pick` names |
| Tracking.AllTrue | pj_tflite_det_yolov5_tracking/image_processor/tracker.cpp:204-213 | the unrestricted scan allows every detection |
| Tracking.SurvivingIff | pj_tflite_det_yolox/image_processor/tracker.cpp:235-241 | the erase loop keeps a track exactly when its miss count is below the threshold, and never adds one |
| Tracking.SurvivingNumbered | pj_tflite_face_blazeface/image_processor/tracker.cpp:334-340 | deleting tracks keeps ids distinct and below the next id, and histories within bounds |
| Tracking.EraseLost | pj_tflite_face_blazeface/image_processor/tracker.cpp:334-340 | the iterator erase loop leaves `Surviving` of the list |
| Tracking.SpawnedIds | pj_tflite_face_blazeface/image_processor/tracker.cpp:342-348 | one new track per free detection, with consecutive ids from the next id, one detection, no miss, and a history of that detection alone |
| Tracking.SpawnedCovers | pj_tflite_det_yolox/image_processor/tracker.cpp:244-249 | the free detection d opens the track at position "free detections before d", with id next plus that count |
| Tracking.DetectionsCovered | pj_tflite_track_deepsort/image_processor/tracker_deepsort.cpp:414-419 | appended after the kept tracks, every detection no track claimed has its own new track, at a known position and with a known id |
| Tracking.AddTracks | pj_tflite_face_blazeface/image_processor/tracker.cpp:342-348 | the append loop adds `Spawned` and advances the sequence number by the number of free detections |
| Tracking.SimilarityRow | pj_tflite_det_yolox/image_processor/tracker.cpp:173-181 | row k holds the IoU with detection k when the classes agree and 0 otherwise |
| Tracking.SimilarityTable | pj_tflite_det_yolov5_tracking/image_processor/tracker.cpp:188-200 | the nested loops fill one `SimilarityRow` per track |
| Tracking.Solution | pj_tflite_face_blazeface/image_processor/tracker.cpp:295-301 | the solver's answer is used only when both lists are non-empty; otherwise every assignment stays -1 |
| Tracking.Accepted | pj_tflite_face_blazeface/image_processor/tracker.cpp:322-331 | an accepted assignment of a real track is -1 or a real detection index |
| Tracking.AcceptedIff | pj_tflite_face_blazeface/image_processor/tracker.cpp:323-325 | track i is matched with detection d exactly when the solver paired them, d names a real detection and the cost is below the maximum cost |
| Tracking.Unclaimed | pj_tflite_face_blazeface/image_processor/tracker.cpp:322-327 | a detection is free exactly when no accepted assignment names it |
| Tracking.PruneThenSpawnNumbered | pj_tflite_face_blazeface/image_processor/tracker.cpp:333-348 | deleting, then appending tracks numbered from the next id, keeps ids distinct and below the advanced next id |
| Tracking.PruneThenSpawn | pj_tflite_face_blazeface/image_processor/tracker.cpp:333-348 | after deleting and appending, the list stays well numbered, the kept prefix has fewer misses than the threshold, and each free detection opens its own track with the next free id |
| Yolov5TrackingTracker.TrackOperations | pj_tflite_det_yolov5_tracking/image_processor/tracker.cpp:92-133 | PreUpdate appends one entry whose raw box is the previous box and keeps at most 400; Update rewrites only the last entry with the detection and counts a detection; UpdateNoDet zeroes the last scores and counts a miss |
| Yolov5TrackingTracker.ChoiceIsBestMatch | pj_tflite_det_yolov5_tracking/image_processor/tracker.cpp:188-221 | a track chooses the first same-class detection of maximal IoU strictly above 0.5, and none exactly when no same-class IoU exceeds 0.5 |
| Yolov5TrackingTracker.LastChooserIff | pj_tflite_det_yolov5_tracking/image_processor/tracker.cpp:215-218 | a detection records a chooser exactly when some track chose it, and that track did choose it |
| Yolov5TrackingTracker.Unchosen | pj_tflite_det_yolov5_tracking/image_processor/tracker.cpp:263-270 | there is one flag per detection |
| Yolov5TrackingTracker.OpenedIffUnchosen | pj_tflite_det_yolov5_tracking/image_processor/tracker.cpp:263-270 | a detection opens a track exactly when no track chose it |
| Yolov5TrackingTracker.SharedDetection | pj_tflite_det_yolov5_tracking/image_processor/tracker.cpp:204-221 | two tracks on the same box both choose the one detection, which then opens no track: one detection may serve several tracks |
| Yolov5TrackingTracker.Predicted | pj_tflite_det_yolov5_tracking/image_processor/tracker.cpp:181-183 | PreUpdate keeps every history non-empty |
| Yolov5TrackingTracker.LatestBoxes | pj_tflite_det_yolov5_tracking/image_processor/tracker.cpp:191-192 | the table is built from each track's latest box |
| Yolov5TrackingTracker.ChoicesInRange | pj_tflite_det_yolov5_tracking/image_processor/tracker.cpp:202-220 | every choice is -1 or a real detection index |
| Yolov5TrackingTracker.SteppedProperties | pj_tflite_det_yolov5_tracking/image_processor/tracker.cpp:179-271 | one Update keeps the list well numbered within 400 entries; kept tracks have fewer than 2 misses; the tracks after them carry consecutive new ids and no miss |
| Yolov5TrackingTracker.PreUpdateAll | pj_tflite_det_yolov5_tracking/image_processor/tracker.cpp:181-183 | the loop applies PreUpdate to every track |
| Yolov5TrackingTracker.Assign | pj_tflite_det_yolov5_tracking/image_processor/tracker.cpp:202-220 | the loop yields `Choices`, and for each detection the last track that chose it |
| Yolov5TrackingTracker.ApplyAll | pj_tflite_det_yolov5_tracking/image_processor/tracker.cpp:243-252 | each track is updated with its choice, or as a miss |
| Yolov5TrackingTracker.Tracker.constructor | pj_tflite_det_yolov5_tracking/image_processor/tracker.cpp:157-160 | a new tracker has no tracks and starts ids at 0 |
| Yolov5TrackingTracker.Tracker.Reset | pj_tflite_det_yolov5_tracking/image_processor/tracker.cpp:166-170 | Reset empties the list and restarts ids at 0 |
| Yolov5TrackingTracker.Tracker.Update | pj_tflite_det_yolov5_tracking/image_processor/tracker.cpp:179-271 | the new list is `Stepped` of the old one and the id counter grows by the number of tracks opened |
| YoloxTracker.Predict | pj_tflite_det_yolox/image_processor/tracker.cpp:65-75 | the prediction keeps the latest class and has score 0 |
| YoloxTracker.UpdateProperties | pj_tflite_det_yolox/image_processor/tracker.cpp:77-100 | Update appends one entry carrying the given box, keeps at most kMaxHistoryNum, and counts a detection (misses reset) or a miss |
| YoloxTracker.Open | pj_tflite_det_yolox/image_processor/tracker.cpp:190-191 | a detection is open to a track exactly when its recorded owner is below the skip bound |
| YoloxTracker.Take | pj_tflite_det_yolox/image_processor/tracker.cpp:186-200 | each track adds one assignment, -1 or a real detection, and keeps the earlier ones |
| YoloxTracker.Assignment | pj_tflite_det_yolox/image_processor/tracker.cpp:183-200 | both index vectors have the right lengths and hold -1 or valid indices |
| YoloxTracker.OneToOneOwners | pj_tflite_det_yolox/image_processor/tracker.cpp:196-199 | with consistent vectors, a detection has no owner exactly when no track holds it |
| YoloxTracker.OwnedIffTaken | pj_tflite_det_yolox/image_processor/tracker.cpp:186-200 | whatever the skip bound, after the greedy loop a detection has no owner exactly when no track holds it, since an owner is only overwritten by a later track |
| YoloxTracker.TakeOneToOne | pj_tflite_det_yolox/image_processor/tracker.cpp:186-200 | one greedy step that skips owned detections keeps the two index vectors consistent |
| YoloxTracker.TakeBest | pj_tflite_det_yolox/image_processor/tracker.cpp:186-200 | each track takes the first open detection of best similarity above the threshold |
| YoloxTracker.OneToOneSnoc | pj_tflite_det_yolox/image_processor/tracker.cpp:198-201 | a track that takes an unowned detection and becomes its owner keeps the two index vectors consistent |
| YoloxTracker.AssignmentConsistent | pj_tflite_det_yolox/image_processor/tracker.cpp:183-200 | with the exclusive test the two index vectors stay consistent after every track |
| YoloxTracker.AssignmentOneToOne | pj_tflite_det_yolox/image_processor/tracker.cpp:183-200 | with the exclusive test no two tracks share a detection, and a detection is unowned exactly when no track holds it |
| YoloxTracker.AssignmentBest | pj_tflite_det_yolox/image_processor/tracker.cpp:183-200 | each track's detection is the first best open one above the threshold |
| YoloxTracker.AsWrittenSharesDetection | pj_tflite_det_yolox/image_processor/tracker.cpp:190-191 | as written, a detection taken by track 0 is taken again by track 1; with the exclusive test track 1 stays unmatched |
| YoloxTracker.Predictions | pj_tflite_det_yolox/image_processor/tracker.cpp:166-169 | one prediction per track |
| YoloxTracker.Table | pj_tflite_det_yolox/image_processor/tracker.cpp:173-181 | the similarity table is rectangular with one `SimilarityRow` per prediction |
| YoloxTracker.Assigned | pj_tflite_det_yolox/image_processor/tracker.cpp:183-200 | the assignment Update makes with a given skip bound (1 in the source, whose test is `> 0`) has one entry per track and per detection, each -1 or a valid index |
| YoloxTracker.Unowned | pj_tflite_det_yolox/image_processor/tracker.cpp:244-249 | a detection is free exactly when its owner index is negative |
| YoloxTracker.AdvanceNumbered | pj_tflite_det_yolox/image_processor/tracker.cpp:225-232 | updating every track, by its detection or by its own prediction as a miss, keeps the list well numbered |
| YoloxTracker.AssignedExclusive | pj_tflite_det_yolox/image_processor/tracker.cpp:183-200 | with the exclusive skip bound 0, the intended half of the `> 0` finding, no detection serves two tracks, and exactly the detections no track took open new tracks |
| YoloxTracker.AssignedOpensUntaken | pj_tflite_det_yolox/image_processor/tracker.cpp:183-249 | with the source's `> 0` test, a detection opens a new track exactly when no track took it, although two tracks may take the same one |
| YoloxTracker.SteppedProperties | pj_tflite_det_yolox/image_processor/tracker.cpp:163-250 | for any skip bound, the source's included, one Update keeps the list well numbered and at most as many old tracks as before; kept tracks have fewer misses than the threshold, and the new tracks take consecutive ids, one per detection no track took |
| YoloxTracker.Step | pj_tflite_det_yolox/image_processor/tracker.cpp:163-250 | the loops of Update with a given skip bound yield `Stepped`, and the sequence number grows by `Opened` |
| YoloxTracker.PredictAll | pj_tflite_det_yolox/image_processor/tracker.cpp:166-169 | the prediction loop yields `Predictions` |
| YoloxTracker.AssignTrack | pj_tflite_det_yolox/image_processor/tracker.cpp:187-201 | one pass of the outer greedy loop, skipping detections whose owner is at least the skip bound, extends `Assignment` by one track |
| YoloxTracker.Assign | pj_tflite_det_yolox/image_processor/tracker.cpp:183-200 | the nested greedy loops with a given skip bound yield `Assignment` with that bound |
| YoloxTracker.AdvanceLoop | pj_tflite_det_yolox/image_processor/tracker.cpp:225-232 | the update loop yields `AdvanceAll` |
| YoloxTracker.Tracker.constructor | pj_tflite_det_yolox/image_processor/tracker.cpp:136-139 | a new tracker has no tracks and starts ids at 0 |
| YoloxTracker.Tracker.Reset | pj_tflite_det_yolox/image_processor/tracker.cpp:145-149 | Reset empties the list and restarts ids at 0 |
| YoloxTracker.Tracker.Update | pj_tflite_det_yolox/image_processor/tracker.cpp:163-250 | the tracker stays valid, the new list is `Stepped` of the old one with the source's `> 0` test (skip bound 1), and the sequence number grows by the number of detections no track took |
| BlazefaceTracker.PredictedBox | pj_tflite_face_blazeface/image_processor/tracker.cpp:54-60 | the prediction keeps the latest class, takes the filter's position and size and has score 0 |
| BlazefaceTracker.TrackOperations | pj_tflite_face_blazeface/image_processor/tracker.cpp:50-98 | Predict appends the predicted box and keeps at most kMaxHistoryNum entries; Update rewrites only the last entry with the detection; UpdateNoDetect only counts a miss |
| BlazefaceTracker.CostGate | pj_tflite_face_blazeface/image_processor/tracker.cpp:256-274 | the cost is below kCostMax exactly when the IoU is positive and above 0.9, or at least the threshold with equal classes; then it is kCostMax - IoU |
| BlazefaceTracker.CostRow | pj_tflite_face_blazeface/image_processor/tracker.cpp:288-292 | a row of the square matrix holds the pair cost for real pairs and kCostMax as padding |
| BlazefaceTracker.CostMatrix | pj_tflite_face_blazeface/image_processor/tracker.cpp:287-293 | the matrix is square of side max(#tracks, #dets) |
| BlazefaceTracker.Predicted | pj_tflite_face_blazeface/image_processor/tracker.cpp:279-283 | every track is predicted once |
| BlazefaceTracker.PredictedBoxes | pj_tflite_face_blazeface/image_processor/tracker.cpp:279-283 | one predicted box per track |
| BlazefaceTracker.Matches | pj_tflite_face_blazeface/image_processor/tracker.cpp:322-331 | every match is -1 or a real detection |
| BlazefaceTracker.MatchesGate | pj_tflite_face_blazeface/image_processor/tracker.cpp:322-331 | a track is updated with detection d exactly when the solver paired them and the cost gate passes |
| BlazefaceTracker.CorrectedAll | pj_tflite_face_blazeface/image_processor/tracker.cpp:323-331 | each track is updated with its match, or counts a miss |
| BlazefaceTracker.CorrectedNumbered | pj_tflite_face_blazeface/image_processor/tracker.cpp:323-331 | the update loop keeps the list well numbered |
| BlazefaceTracker.PredictedNumbered | pj_tflite_face_blazeface/image_processor/tracker.cpp:279-283 | the prediction loop keeps the list well numbered |
| BlazefaceTracker.SteppedProperties | pj_tflite_face_blazeface/image_processor/tracker.cpp:276-349 | one Update keeps the list well numbered; kept tracks have fewer misses than the threshold; each unassigned detection opens its own track with the next id |
| BlazefaceTracker.PredictAll | pj_tflite_face_blazeface/image_processor/tracker.cpp:279-283 | the loop yields the predicted tracks and boxes |
| BlazefaceTracker.FillCostMatrix | pj_tflite_face_blazeface/image_processor/tracker.cpp:287-293 | the loops yield `CostMatrix` |
| BlazefaceTracker.Associate | pj_tflite_face_blazeface/image_processor/tracker.cpp:295-331 | the guarded solver call and the gate yield `Matches` |
| BlazefaceTracker.CorrectLoop | pj_tflite_face_blazeface/image_processor/tracker.cpp:322-331 | the loop yields `CorrectedAll`, and a detection is marked exactly when some track took it |
| BlazefaceTracker.Step | pj_tflite_face_blazeface/image_processor/tracker.cpp:276-349 | the steps in order yield `Stepped` and advance the sequence number by the number of unassigned detections |
| BlazefaceTracker.Tracker.constructor | pj_tflite_face_blazeface/image_processor/tracker.cpp:233-238 | a new tracker has no tracks, starts ids at 0, deletes after 2 misses and tracks from IoU 0.3 |
| BlazefaceTracker.Tracker.Reset | pj_tflite_face_blazeface/image_processor/tracker.cpp:244-248 | Reset empties the list and restarts ids at 0 |
| BlazefaceTracker.Tracker.Update | pj_tflite_face_blazeface/image_processor/tracker.cpp:276-349 | the new list is `Stepped` of the old one and the sequence number grows by the number of unassigned detections |
| Yolov5Tracker.FromState | pj_tflite_det_yolov5/image_processor/tracker.cpp:63-86 | the estimate's size is the filter state's size truncated to int |
| Yolov5Tracker.FromStateOfBox | pj_tflite_det_yolov5/image_processor/tracker.cpp:31-39 | a filter state that is exactly the box's size and integer centre gives back the box |
| Yolov5Tracker.TruncOfInt | pj_tflite_det_yolov5/image_processor/tracker.cpp:31-39 | converting an int to float and back is the identity |
| Yolov5Tracker.PredictedBox | pj_tflite_det_yolov5/image_processor/tracker.cpp:63-86 | the prediction keeps the latest class and has score 0 |
| Yolov5Tracker.TrackOperations | pj_tflite_det_yolov5/image_processor/tracker.cpp:63-116 | Predict appends the predicted box and keeps the bound; Update rewrites only the last entry with the detection's raw box and score, keeping the track's class; UpdateNoDetect only counts a miss |
| Yolov5Tracker.CostGate | pj_tflite_det_yolov5/image_processor/tracker.cpp:247-254 | a cost is below kCostMax exactly when the classes match and the IoU is positive |
| Yolov5Tracker.CostRow | pj_tflite_det_yolov5/image_processor/tracker.cpp:249-253 | one cost per detection |
| Yolov5Tracker.CostMatrix | pj_tflite_det_yolov5/image_processor/tracker.cpp:247-254 | the matrix has one row per track and one column per detection |
| Yolov5Tracker.Predicted | pj_tflite_det_yolov5/image_processor/tracker.cpp:238-244 | every track is predicted once |
| Yolov5Tracker.PredictedBoxes | pj_tflite_det_yolov5/image_processor/tracker.cpp:238-244 | one predicted box per track |
| Yolov5Tracker.Matches | pj_tflite_det_yolov5/image_processor/tracker.cpp:285-292 | every match is -1 or a real detection |
| Yolov5Tracker.SolverFree | pj_tflite_det_yolov5/image_processor/tracker.cpp:304-309 | one flag per detection, from the solver's own track index |
| Yolov5Tracker.AsWrittenDropsDetection | pj_tflite_det_yolov5/image_processor/tracker.cpp:285-309 | as written, a detection the solver pairs with a track of another class neither updates that track nor opens a track; the corrected test opens one |
| Yolov5Tracker.CorrectedAll | pj_tflite_det_yolov5/image_processor/tracker.cpp:285-292 | each track is updated with its match, or counts a miss |
| Yolov5Tracker.PredictedNumbered | pj_tflite_det_yolov5/image_processor/tracker.cpp:238-244 | the prediction loop keeps the list well numbered |
| Yolov5Tracker.CorrectedNumbered | pj_tflite_det_yolov5/image_processor/tracker.cpp:285-292 | the update loop keeps the list well numbered |
| Yolov5Tracker.SteppedProperties | pj_tflite_det_yolov5/image_processor/tracker.cpp:236-310 | for any spawn flags, including the solver's own track index used as written, one Update keeps the list well numbered, kept tracks have fewer misses than the threshold and the flagged detections open consecutive ids after them; with the corrected flags each unmatched detection opens its own track |
| Yolov5Tracker.PredictAll | pj_tflite_det_yolov5/image_processor/tracker.cpp:238-244 | the loop yields the predicted tracks and boxes |
| Yolov5Tracker.FillCostMatrix | pj_tflite_det_yolov5/image_processor/tracker.cpp:247-254 | the loops yield `CostMatrix` |
| Yolov5Tracker.CorrectLoop | pj_tflite_det_yolov5/image_processor/tracker.cpp:285-292 | the loop yields `CorrectedAll` |
| Yolov5Tracker.Step | pj_tflite_det_yolov5/image_processor/tracker.cpp:236-310 | the steps in order yield `Stepped` with new tracks opened from `SolverFree`, as written, and advance the sequence number by the number of detections the solver left without a track |
| Yolov5Tracker.Tracker.constructor | pj_tflite_det_yolov5/image_processor/tracker.cpp:208-211 | a new tracker has no tracks and starts ids at 0 |
| Yolov5Tracker.Tracker.Reset | pj_tflite_det_yolov5/image_processor/tracker.cpp:218-222 | Reset empties the list and restarts ids at 0 |
| Yolov5Tracker.Tracker.Update | pj_tflite_det_yolov5/image_processor/tracker.cpp:236-310 | the tracker stays well numbered; the new list is `Stepped` of the old one with the as-written `SolverFree` flags, and the sequence number grows by the number of detections the solver left without a track |
| DeepSortTracker.Denominator | pj_tflite_track_deepsort/image_processor/tracker_deepsort.cpp:270-273 | the product of the two norms is positive for non-zero vectors |
| DeepSortTracker.SquaresNonNegative | pj_tflite_track_deepsort/image_processor/tracker_deepsort.cpp:262-268 | a squared norm is never negative |
| DeepSortTracker.DotSymmetric | pj_tflite_track_deepsort/image_processor/tracker_deepsort.cpp:262-268 | the dot product is symmetric |
| DeepSortTracker.CosineSymmetric | pj_tflite_track_deepsort/image_processor/tracker_deepsort.cpp:257-274 | CosineSimilarity is symmetric in its arguments |
| DeepSortTracker.CauchySchwarz | pj_tflite_track_deepsort/image_processor/tracker_deepsort.cpp:262-273 | the squared dot product is at most the product of the squared norms |
| DeepSortTracker.CosineRange | pj_tflite_track_deepsort/image_processor/tracker_deepsort.cpp:257-274 | the result is 999 exactly for empty, length-mismatched or zero-norm features, and otherwise lies in [0, 1] |
| DeepSortTracker.ValidCosineAtMostOne | pj_tflite_track_deepsort/image_processor/tracker_deepsort.cpp:270-273 | for valid features the similarity is at most 1 |
| DeepSortTracker.CosineSelf | pj_tflite_track_deepsort/image_processor/tracker_deepsort.cpp:257-274 | a non-zero feature has similarity 1 with itself |
| DeepSortTracker.CosineSimilarity | pj_tflite_track_deepsort/image_processor/tracker_deepsort.cpp:257-274 | the accumulation loop yields `Cosine` |
| DeepSortTracker.AdjustProperties | pj_tflite_track_deepsort/image_processor/tracker_deepsort.cpp:285-293 | the adjusted similarity is non-negative, zero exactly when the value is at most 0.9, at most 1 for values at most 1, and monotone |
| DeepSortTracker.PredictedBox | pj_tflite_track_deepsort/image_processor/tracker_deepsort.cpp:52-73 | the prediction keeps the latest class, takes the filter's position and size and has score 0 |
| DeepSortTracker.TrackOperations | pj_tflite_track_deepsort/image_processor/tracker_deepsort.cpp:52-100 | Predict appends the predicted box with the latest feature and keeps at most 500 entries; Update rewrites only the last entry's boxes, keeping its feature; UpdateNoDetect only counts a miss |
| DeepSortTracker.SamplingBounds | pj_tflite_track_deepsort/image_processor/tracker_deepsort.cpp:323-334 | the sampling loop gathers at most 11 similarities, never 999; stopping early means some detected history entry had an invalid similarity |
| DeepSortTracker.SamplingInUnit | pj_tflite_track_deepsort/image_processor/tracker_deepsort.cpp:323-334 | every sampled similarity lies in [0, 1] |
| DeepSortTracker.SumInUnit | pj_tflite_track_deepsort/image_processor/tracker_deepsort.cpp:335-337 | the sum of n values in [0, 1] lies in [0, n] |
| DeepSortTracker.MeanInUnit | pj_tflite_track_deepsort/image_processor/tracker_deepsort.cpp:335-337 | the mean of values in [0, 1] lies in [0, 1] |
| DeepSortTracker.PairCostGate | pj_tflite_track_deepsort/image_processor/tracker_deepsort.cpp:295-345 | the cost lies in [kCostMax - 1, kCostMax]; it is below kCostMax exactly when the boxes are near, the IoU is at least 0.8 or the classes agree, and the IoU or the adjusted mean similarity is positive; an invalid feature gives kCostMax - IoU |
| DeepSortTracker.CalculateCost | pj_tflite_track_deepsort/image_processor/tracker_deepsort.cpp:295-345 | the method yields `PairCost` |
| DeepSortTracker.CostRow | pj_tflite_track_deepsort/image_processor/tracker_deepsort.cpp:357-363 | a row holds the pair cost for real pairs and kCostMax as padding |
| DeepSortTracker.CostMatrix | pj_tflite_track_deepsort/image_processor/tracker_deepsort.cpp:357-363 | the matrix is square of side max(#tracks, #dets) |
| DeepSortTracker.Predicted | pj_tflite_track_deepsort/image_processor/tracker_deepsort.cpp:351-353 | every track is predicted once and keeps a non-empty history |
| DeepSortTracker.Matches | pj_tflite_track_deepsort/image_processor/tracker_deepsort.cpp:392-402 | every match is -1 or a real detection |
| DeepSortTracker.MatchesGate | pj_tflite_track_deepsort/image_processor/tracker_deepsort.cpp:392-402 | a track takes detection d exactly when the solver paired them and the cost is below kCostMax |
| DeepSortTracker.CorrectedAll | pj_tflite_track_deepsort/image_processor/tracker_deepsort.cpp:392-402 | each track is updated with its match, or counts a miss |
| DeepSortTracker.Firsts | pj_tflite_track_deepsort/image_processor/tracker_deepsort.cpp:414-419 | a new track starts from the detection box and its feature |
| DeepSortTracker.PredictedNumbered | pj_tflite_track_deepsort/image_processor/tracker_deepsort.cpp:351-353 | the prediction loop keeps the list well numbered |
| DeepSortTracker.CorrectedNumbered | pj_tflite_track_deepsort/image_processor/tracker_deepsort.cpp:392-402 | the update loop keeps the list well numbered |
| DeepSortTracker.CorrectedFeature | pj_tflite_track_deepsort/image_processor/tracker_deepsort.cpp:395-398 | an accepted match overwrites the latest entry's boxes and feature with the detection's |
| DeepSortTracker.SteppedProperties | pj_tflite_track_deepsort/image_processor/tracker_deepsort.cpp:348-420 | one Update keeps the list well numbered within 500 entries; kept tracks have fewer misses than the threshold; each unassigned detection opens its own track with its feature |
| DeepSortTracker.PredictAll | pj_tflite_track_deepsort/image_processor/tracker_deepsort.cpp:351-353 | the loop yields `Predicted` |
| DeepSortTracker.FillCostMatrix | pj_tflite_track_deepsort/image_processor/tracker_deepsort.cpp:357-363 | the loops yield `CostMatrix` |
| DeepSortTracker.CorrectLoop | pj_tflite_track_deepsort/image_processor/tracker_deepsort.cpp:392-402 | the loop yields `CorrectedAll`, and the unmarked detections are the unclaimed ones |
| DeepSortTracker.Step | pj_tflite_track_deepsort/image_processor/tracker_deepsort.cpp:348-420 | the steps in order yield `Stepped` and advance the sequence number by `Added` |
| DeepSortTracker.TrackerDeepSort.constructor | pj_tflite_track_deepsort/image_processor/tracker_deepsort.cpp:235-239 | a new tracker has no tracks, starts ids at 0 and keeps the deletion threshold |
| DeepSortTracker.TrackerDeepSort.Reset | pj_tflite_track_deepsort/image_processor/tracker_deepsort.cpp:245-249 | Reset empties the list and restarts ids at 0 |
| DeepSortTracker.TrackerDeepSort.Update | pj_tflite_track_deepsort/image_processor/tracker_deepsort.cpp:348-420 | the new list is `Stepped` of the old one and the sequence number grows by `Added` |
| InferenceHelper.Create | InferenceHelper/InferenceHelper.cpp:23-64 | a helper is created exactly for a type whose switches are compiled in; it keeps the requested type, and its class is the TensorFlow Lite one exactly for the four TensorFlow Lite types |
| InferenceHelper.DequantisedValueInverts | InferenceHelper/InferenceHelper.cpp:93-97 | with a non-zero scale, quantising `(b - zeroPoint) * scale` gives b back |
| InferenceHelper.DequantiseRoundTrip | InferenceHelper/InferenceHelper.cpp:87-97 | with a non-zero scale, every dequantised element of a buffer quantises back to its byte |
| InferenceHelper.DequantisedValueMonotone | InferenceHelper/InferenceHelper.cpp:93-97 | with a positive scale, a larger byte never dequantises to a smaller value |
| InferenceHelper.DequantiseOrdered | InferenceHelper/InferenceHelper.cpp:87-97 | dequantising a buffer keeps the order of its elements, and the zero point becomes 0.0 |
| InferenceHelper.ElementCount | InferenceHelper/InferenceHelper.cpp:88-89 | the loop yields the product of the dimensions |
| InferenceHelper.TensorInfo.constructor | InferenceHelper/InferenceHelper.cpp:67-76 | a new tensor has index -1, type NONE, no data, no dimensions, scale and zero point 0 and no float buffer |
| InferenceHelper.TensorInfo.GetDataAsFloat | InferenceHelper/InferenceHelper.cpp:85-105 | a UINT8 tensor is dequantised element by element into the float buffer, which is allocated with the element count on the first call only; an FP32 tensor returns its own data; any other type returns NULL; the description itself does not change |
| InferenceHelper.PlainImageCheck | InferenceHelper/InferenceHelperTensorflowLite.cpp:184-195 | Ok exactly when there is no crop, the crop size is the tensor size and the channel counts agree; the TensorRT helper makes the same three checks (InferenceHelper/InferenceHelperTensorRt.cpp, lines 226-237) |
| InferenceHelper.TransposedAt | InferenceHelper/InferenceHelperTensorflowLite.cpp:227-231 | element (i, j) of a rows x cols row-major matrix is element (j, i) of its transpose |
| InferenceHelper.TransposedSourceInverts | InferenceHelper/InferenceHelperTensorflowLite.cpp:227-231 | the index maps of the two layout changes are inverse to each other |
| InferenceHelper.TransposeRoundTrip | InferenceHelper/InferenceHelperTensorflowLite.cpp:227-231 | transposing back restores the original layout |
| InferenceHelper.TransposeInto | InferenceHelper/InferenceHelperTensorflowLite.cpp:227-231 | the nested loop writes the transpose of the source into the first rows x cols elements and leaves the rest |
| InferenceHelper.FoldedNormalizeExact | InferenceHelper/InferenceHelperTensorflowLite.cpp:438-458 | with folded parameters, `(x - mean) * norm` is exactly `(x / 255 - mean) / norm` of the original parameters |
| InferenceHelper.ConvertNormalizeParameters | InferenceHelper/InferenceHelperTensorflowLite.cpp:438-458 | for an image input the first three means become mean * 255 and norms 1 / (norm * 255); other inputs and later entries are left alone; the MNN and OpenCV helpers fold them the same way (InferenceHelper/InferenceHelperMnn.cpp, lines 252-271; InferenceHelper/InferenceHelperOpenCV.cpp, lines 237-257) |
| TfliteHelper.FindByName | InferenceHelper/InferenceHelperTensorflowLite.cpp:335-337 | the position of the first tensor with the name, and None exactly when no tensor has it |
| TfliteHelper.FindTensor | InferenceHelper/InferenceHelperTensorflowLite.cpp:335-337 | the scan yields `FindByName` |
| TfliteHelper.FirstIsFound | InferenceHelper/InferenceHelperTensorflowLite.cpp:335-337 | a name first carried by tensor k is found at k |
| TfliteHelper.FromModel | InferenceHelper/InferenceHelperTensorflowLite.cpp:362-367 | the dimensions taken from a fixed model are each at least 1, so they count as set |
| TfliteHelper.InputTensorUpdate | InferenceHelper/InferenceHelperTensorflowLite.cpp:338-386 | the id is written even on failure; it fails exactly when an open model meets an unset size, a fixed model disagrees with a set size, or the resize allocation fails; on success the size is set and the type follows the tensor; on failure only the id changed |
| TfliteHelper.NegotiatedAgreesWithModel | InferenceHelper/InferenceHelperTensorflowLite.cpp:350-367 | after success against a fixed model, each dimension the model gives as at least 1 is the model's |
| TfliteHelper.NegotiationIdempotent | InferenceHelper/InferenceHelperTensorflowLite.cpp:338-386 | negotiating again with the result against a fixed positive model succeeds and changes nothing |
| TfliteHelper.InputTensorLookup | InferenceHelper/InferenceHelperTensorflowLite.cpp:333-392 | an unknown name is an error that leaves the description alone |
| TfliteHelper.GetInputTensorInfo | InferenceHelper/InferenceHelperTensorflowLite.cpp:333-392 | the method yields `InputTensorLookup` |
| TfliteHelper.OutputDims | InferenceHelper/InferenceHelperTensorflowLite.cpp:401-406 | every dimension the model has is copied in NHWC order; the fields past its rank keep their values |
| TfliteHelper.OutputTensorUpdate | InferenceHelper/InferenceHelperTensorflowLite.cpp:398-430 | id and dimensions are written first; it fails exactly for a type outside UINT8, FP32, INT32 and INT64; UINT8 takes the tensor's scale and zero point, other types keep the old ones |
| TfliteHelper.OutputDimsReadBack | InferenceHelper/InferenceHelperTensorflowLite.cpp:401-406 | a four-dimensional output shape is read back exactly |
| TfliteHelper.OutputTensorLookup | InferenceHelper/InferenceHelperTensorflowLite.cpp:394-436 | an unknown name is an error that leaves the description alone |
| TfliteHelper.GetOutputTensorInfo | InferenceHelper/InferenceHelperTensorflowLite.cpp:394-436 | the method yields `OutputTensorLookup` |
| TfliteHelper.Initialize | InferenceHelper/InferenceHelperTensorflowLite.cpp:63-143 | Ok exactly when the interpreter is ready and every input and then every output resolves; on Ok, each description is its lookup's result |
| TfliteHelper.InputTransfer | InferenceHelper/InferenceHelperTensorflowLite.cpp:183-279 | a plain UINT8 image is copied, a plain FP32 image normalised, an NHWC blob of a known type rebound, an NCHW blob of a known type permuted, and anything else rejected |
| TfliteHelper.PreProcess | InferenceHelper/InferenceHelperTensorflowLite.cpp:170-283 | Ok exactly when the interpreter exists and every input names a tensor and is not rejected; the transfers are those of the inputs in order |
| TfliteHelper.NormalizeImageInto | InferenceHelper/InferenceHelperTensorflowLite.cpp:202-213 | the loop writes `NormalizedNhwc` of the source and leaves the rest of the tensor |
| TfliteHelper.PermuteBlobToNhwc | InferenceHelper/InferenceHelperTensorflowLite.cpp:226-231 | the loop writes the transpose of the C x HW source matrix, that is its NHWC layout |
| TfliteHelper.BoundBytes | InferenceHelper/InferenceHelperTensorflowLite.cpp:471-506 | the byte count passed with a rebound buffer is H*W*C for UINT8 tensors and 4*H*W*C for all others |
| TfliteHelper.BoundBytesShortForInt64 | InferenceHelper/InferenceHelperTensorflowLite.cpp:497-503 | a 1x1x1x1 INT64 tensor is bound with 4 bytes where it needs 8 |
| TfliteHelper.BindingBytesMatchTensor | InferenceHelper/InferenceHelperTensorflowLite.cpp:471-506 | the count with the tensor's own element size is what a batch-1 tensor needs, and equals the as-written count for every type but INT64 |
| TensorRtHelper.IndexFrom | InferenceHelper/InferenceHelperTensorRt.cpp:84-87 | the first occurrence of the pattern at or after the start, and None exactly when there is none |
| TensorRtHelper.ModelFormatOf | InferenceHelper/InferenceHelperTensorRt.cpp:79-92 | a name containing ".onnx" is an ONNX model, otherwise one containing ".trt" is a serialised engine, otherwise the format is unsupported |
| TensorRtHelper.OnnxEngineCachedAsTrt | InferenceHelper/InferenceHelperTensorRt.cpp:84-88 | for a base name without ".onnx", `base.onnx` saves its engine as `base.trt`, and `base.trt` is then loaded as an engine |
| TensorRtHelper.BindingIndex | InferenceHelper/InferenceHelperTensorRt.cpp:368 | the first binding with the name, and -1 exactly when none has it |
| TensorRtHelper.BufferBytes | InferenceHelper/InferenceHelperTensorRt.cpp:335-363 | FLOAT, HALF and INT32 bindings take 4 bytes per element, INT8 one byte, and any other type fails |
| TensorRtHelper.AcceptedBelowAll | InferenceHelper/InferenceHelperTensorRt.cpp:332-419 | the binding loop's running acceptance is the acceptance of every binding below it |
| TensorRtHelper.AllAcceptedIgnoresIds | InferenceHelper/InferenceHelperTensorRt.cpp:366-418 | acceptance does not depend on the ids the descriptions carry |
| TensorRtHelper.BufferList | InferenceHelper/InferenceHelperTensorRt.cpp:335-363 | one buffer size per binding, each the binding's `BufferBytes` where that is defined |
| TensorRtHelper.OutputBound | InferenceHelper/InferenceHelperTensorRt.cpp:395-415 | an output bound to binding i gets id i and the NCHW dimensions; an INT8 binding sets scale 1.0 and zero point 0 |
| TensorRtHelper.BindInputs | InferenceHelper/InferenceHelperTensorRt.cpp:366-391 | the input loop of one binding succeeds exactly when every input it names matches its size and type, and binds those inputs |
| TensorRtHelper.BindOutputs | InferenceHelper/InferenceHelperTensorRt.cpp:392-418 | the output loop of one binding succeeds exactly when every output it names has a matching type, and binds those outputs |
| TensorRtHelper.BindTensors | InferenceHelper/InferenceHelperTensorRt.cpp:366-418 | an input binding runs the input loop and an output binding the output loop |
| TensorRtHelper.InputsResolved | InferenceHelper/InferenceHelperTensorRt.cpp:170-191 | after binding, an input's id is not -1 exactly when an input binding carries its name, and then it is that binding's index |
| TensorRtHelper.OutputsResolved | InferenceHelper/InferenceHelperTensorRt.cpp:173-191 | the same for outputs |
| TensorRtHelper.IdsFound | InferenceHelper/InferenceHelperTensorRt.cpp:180-191 | Ok exactly when no input and no output still has id -1 |
| TensorRtHelper.Allocate | InferenceHelper/InferenceHelperTensorRt.cpp:327-422 | Ok exactly when every binding has a supported type and is accepted; on Ok the sizes are `BufferList` and the descriptions are bound |
| TensorRtHelper.TrtHelper.constructor | InferenceHelper/InferenceHelperTensorRt.h:35 | a new helper has no buffers |
| TensorRtHelper.AllocateOne | InferenceHelper/InferenceHelperTensorRt.cpp:327-422 | one binding fails exactly when it has no buffer type or rejects a tensor naming it; otherwise the acceptance, the sizes and the bound descriptions extend to one more binding |
| TensorRtHelper.TrtHelper.AllocateBuffers | InferenceHelper/InferenceHelperTensorRt.cpp:327-422 | the buffer list grows by `BufferList`, with the same verdict and bindings as `Allocate` |
| TensorRtHelper.TrtHelper.Initialize | InferenceHelper/InferenceHelperTensorRt.cpp:77-194 | Ok exactly when the format is supported, the engine was built, every binding is accepted and every input and output name is a binding of its direction; on Ok each input gets its binding index and each output is bound |
| TensorRtHelper.TrtHelper.InputTransfer | InferenceHelper/InferenceHelperTensorRt.cpp:225-296 | a plain FP32 image whose host buffer has exactly 4*W*H*C bytes is normalised into NCHW, a plain UINT8 image whose buffer has exactly W*H*C bytes is permuted into NCHW, an NHWC blob is permuted, an NCHW blob copied, and anything else rejected |
| TensorRtHelper.TrtHelper.PreProcess | InferenceHelper/InferenceHelperTensorRt.cpp:222-300 | Ok exactly when no input is rejected; the transfers are those of the inputs in order |
| TensorRtHelper.NormalizeChannel | InferenceHelper/InferenceHelperTensorRt.cpp:250-254 | the pixel loop of one channel writes the next hw destination elements with that channel of the normalised image, keeping what was written before and the rest of the buffer |
| TensorRtHelper.NormalizeToNchwInto | InferenceHelper/InferenceHelperTensorRt.cpp:248-259 | the loop writes the NCHW layout of `NormalizedNhwc` of the source and leaves the rest |
| TensorRtHelper.NchwImageReadsBackAsNhwc | InferenceHelper/InferenceHelperTensorRt.cpp:248-259 | the NCHW image permuted back is exactly the NHWC normalisation of the TensorFlow Lite helper |
| TensorRtHelper.PermuteToNchw | InferenceHelper/InferenceHelperTensorRt.cpp:268-273 | the loop writes the NCHW layout of the NHWC source element by element and leaves the rest |
| TensorRtHelper.BlobBytesAsWrittenSplitsFloats | InferenceHelper/InferenceHelperTensorRt.cpp:279-288 | permuting the bytes of a 2 x 2 FP32 blob moves byte 2 in front of byte 1 and leaves the last three floats unwritten |
| MnnHelper.Lookup | InferenceHelper/InferenceHelperMnn.cpp:72-76 | the first session tensor with the name, and None exactly when none has it |
| MnnHelper.InputNegotiation | InferenceHelper/InferenceHelperMnn.cpp:77-109 | fails exactly when the types do not pair, a fixed model disagrees with a set size, or an open model meets an unset size; a fixed model's size is then the result's; only the dimensions change, and a failure changes nothing |
| MnnHelper.NegotiationIdempotent | InferenceHelper/InferenceHelperMnn.cpp:77-109 | negotiating again with the result succeeds and changes nothing |
| MnnHelper.Initialize | InferenceHelper/InferenceHelperMnn.cpp:70-118 | Ok exactly when every input is found and negotiates and every output name is found; on Ok each input is its negotiated description |
| MnnHelper.ColourFormats | InferenceHelper/InferenceHelperMnn.cpp:155-175 | defined exactly for one or three channels on both sides; grey exactly on a one-channel side; a colour source follows isBGR; for three to three the order changes exactly with swapColor; grey widens to BGR |
| MnnHelper.InputTransfer | InferenceHelper/InferenceHelperMnn.cpp:147-210 | an uncropped image with a supported conversion is converted, any blob is copied with W*H*C elements, and anything else rejected |
| MnnHelper.PreProcess | InferenceHelper/InferenceHelperMnn.cpp:139-213 | Ok exactly when every input is a session input and is not rejected; the transfers are those of the inputs in order |
| MnnHelper.CopyBlobInto | InferenceHelper/InferenceHelperMnn.cpp:197-205 | the loop copies the first W*H*C elements and leaves the rest |
| MnnHelper.OutputType | InferenceHelper/InferenceHelperMnn.cpp:230-240 | float is FP32, a one-byte uint is UINT8, anything else fails |
| MnnHelper.OutputRead | InferenceHelper/InferenceHelperMnn.cpp:230-245 | the type as `OutputType` says, and each dimension max(dimension, 1) |
| MnnHelper.OutputDimsPositive | InferenceHelper/InferenceHelperMnn.cpp:242-245 | every dimension read back is at least 1 and equals the session's where that is at least 1, so the element count is positive |
| MnnHelper.MnnHelper.constructor | InferenceHelper/InferenceHelperMnn.h:37 | a new helper holds no output copies |
| MnnHelper.MnnHelper.Invoke | InferenceHelper/InferenceHelperMnn.cpp:215-250 | the copies are rebuilt; Ok exactly when every output is found with a supported type; on Ok there is one copy per output and each description is `OutputRead` of it |
| MnnHelper.MnnHelper.Finalize | InferenceHelper/InferenceHelperMnn.cpp:130-137 | the copies are released and the result is RET_ERR |
| NcnnHelper.ModelFilesDistinct | InferenceHelper/InferenceHelperNcnn.cpp:55-62 | the ".param" and ".bin" names never coincide, and each determines the model name |
| NcnnHelper.PixelTypeOf | InferenceHelper/InferenceHelperNcnn.cpp:86-102 | defined exactly for the channel pairs MNN accepts and converting the same way, except that grey widens to RGB here and to BGR there |
| NcnnHelper.InputMat | InferenceHelper/InferenceHelperNcnn.cpp:79-121 | fails exactly for a cropped image, an unsupported conversion or an unknown kind; a blob gets an empty mat; an image mat has the tensor's width and height, is resized exactly when the crop size differs from the tensor size, and keeps the caller's mean and norm |
| NcnnHelper.OutputFromMat | InferenceHelper/InferenceHelperNcnn.cpp:146-150 | batch 1 and channel, height and width from the mat, so the element count is c*h*w; everything else is kept |
| NcnnHelper.NcnnHelper.constructor | InferenceHelper/InferenceHelperNcnn.h:30-32 | a new helper has no network files and no mats |
| NcnnHelper.NcnnHelper.Initialize | InferenceHelper/InferenceHelperNcnn.cpp:47-64 | Ok exactly when both the ".param" and the ".bin" file load; the ".bin" file is tried only after the ".param" file loaded |
| NcnnHelper.NcnnHelper.PreProcess | InferenceHelper/InferenceHelperNcnn.cpp:75-124 | the list is rebuilt with one (name, `InputMat`) pair per input up to the first failure; Ok exactly when no input fails |
| NcnnHelper.NcnnHelper.Invoke | InferenceHelper/InferenceHelperNcnn.cpp:126-154 | an input name the network refuses fails before anything changes; otherwise the output mats are rebuilt up to the first name the network cannot produce, and each output is read back by `OutputFromMat`; Ok exactly when nothing fails |
| NcnnHelper.NcnnHelper.Finalize | InferenceHelper/InferenceHelperNcnn.cpp:67-73 | the network and both lists are released and the result is RET_ERR |
| OpenCvHelper.TargetOf | InferenceHelper/InferenceHelperOpenCV.cpp:55-66 | OPEN_CV runs on the CPU and OPEN_CV_GPU on OpenCL; every other type fails |
| OpenCvHelper.LayerId | InferenceHelper/InferenceHelperOpenCV.cpp:79-92 | the id of the first layer with the name, and None exactly when no layer has it |
| OpenCvHelper.FindLayer | InferenceHelper/InferenceHelperOpenCV.cpp:81-87 | the inner scan finds a layer exactly when `LayerId` does, with its id |
| OpenCvHelper.Initialize | InferenceHelper/InferenceHelperOpenCV.cpp:47-100 | Ok exactly when the network loaded, the helper type has a target and every output names a layer; a single input takes the first layer's name and id, any other number of inputs is left as it is without failing; on Ok every output has its layer's id |
| OpenCvHelper.ColourConversion | InferenceHelper/InferenceHelperOpenCV.cpp:132-143 | defined exactly for equal channel counts, three to one and one to three, so for everything MNN accepts; equal counts swap exactly for three channels with swapColor; three to one follows isBGR; one to three is GRAY2BGR |
| OpenCvHelper.CropOf | InferenceHelper/InferenceHelperOpenCV.cpp:118-122 | a crop happens exactly when the crop size differs from the image size, with the caller's rectangle |
| OpenCvHelper.ResizeOf | InferenceHelper/InferenceHelperOpenCV.cpp:125-129 | a resize happens exactly when the crop size differs from the tensor size, to the tensor size |
| OpenCvHelper.InputBlob | InferenceHelper/InferenceHelperOpenCV.cpp:110-200 | accepted exactly for an image with a supported conversion that is UINT8 or FP32 with one or three tensor channels, or an FP32 or UINT8 NHWC blob; an image blob records the crop, resize and conversion and is scaled exactly when FP32; every blob has batch 1 and the tensor's height and width |
| OpenCvHelper.OutputFromMat | InferenceHelper/InferenceHelperOpenCV.cpp:226-232 | batch 1, height from the rows, width from the columns and channel from the mat; everything else is kept |
| OpenCvHelper.OpenCvHelper.constructor | InferenceHelper/InferenceHelperOpenCV.h:31-32 | a new helper has no mats and no requested names |
| OpenCvHelper.OpenCvHelper.PreProcess | InferenceHelper/InferenceHelperOpenCV.cpp:108-203 | the list is rebuilt with one `InputBlob` per input up to the first refusal; Ok exactly when nothing is refused |
| OpenCvHelper.OpenCvHelper.Invoke | InferenceHelper/InferenceHelperOpenCV.cpp:205-235 | Ok exactly when one blob is set and forward returns one mat per output; without one blob nothing changes; otherwise the output names are requested in order and the mats kept, and on Ok each output is read back by `OutputFromMat` |
| OpenCvHelper.OpenCvHelper.Finalize | InferenceHelper/InferenceHelperOpenCV.cpp:103-106 | the result is RET_ERR |
| CropResize.Centred | common_helper/common_helper_cv.cpp:46-51 | `(total - part) / 2` puts `part` inside `total`, with the two margins differing by at most one pixel |
| CropResize.FullWidth | common_helper/common_helper_cv.cpp:50-51 | a rectangle spanning the image's full width with height q truncated lies inside the image, centred vertically to within one pixel, its height within one pixel below q |
| CropResize.FullHeight | common_helper/common_helper_cv.cpp:47-48 | a rectangle spanning the image's full height with width q truncated lies inside the image, centred horizontally to within one pixel, its width within one pixel below q |
| CropResize.CutTarget | common_helper/common_helper_cv.cpp:43-52 | the Cut target lies inside the source; a source wider than the destination keeps its full height and gets the truncated width rows * dst aspect, centred; otherwise it keeps its full width and gets the truncated height cols / dst aspect, centred |
| CropResize.ExpandTarget | common_helper/common_helper_cv.cpp:60-69 | the Expand target lies inside the destination; a source wider than the destination fills the destination's width and gets the truncated height W / src aspect, centred; otherwise it fills the height and gets the truncated width H * src aspect, centred |
| CropResize.StretchKeepsCrop | common_helper/common_helper_cv.cpp:40-41 | Stretch mode leaves crop_x, crop_y, crop_w and crop_h as they were |
| CropResize.CutStaysInside | common_helper/common_helper_cv.cpp:42-58 | after Cut the crop lies inside the old crop, with one side kept whole |
| CropResize.ExpandContains | common_helper/common_helper_cv.cpp:59-75 | after Expand the crop is moved back by target_rect.x * crop_w / target_rect.width (the same for y) and grown to dst.cols * crop_w / target_rect.width (the same for h), and it contains the old crop |
| CropResize.ExpandWholeImage | common_helper/common_helper_cv.cpp:72-75 | Expand from the whole image gives a crop that covers the image, and clamping that crop to the image gives back the whole image |
| CropResize.CentreCrop | pj_tflite_face_dbface/image_processor/face_detection_engine.cpp:143-155 | the inline centre crop lies inside the image, keeps one side whole, and equals Cut mode applied to the whole image |
| CropResize.CentreCropAspect | pj_tflite_det_yolov5_tracking/image_processor/detection_engine.cpp:176-189 | an image wider than the tensor keeps its height and gets crop_w = truncated aspect * rows with crop_x = (cols - crop_w) / 2; otherwise it keeps its width and gets crop_h = truncated cols / aspect with crop_y = (rows - crop_h) / 2 |
| CropResize.ResultCrop | pj_tflite_face_blazeface/image_processor/face_detection_engine.cpp:250-253 | the reported crop has x = max(0, crop_x), y = max(0, crop_y), w = min(crop_w, cols - x) and h = min(crop_h, rows - y) |
| CropResize.ResultCropProperties | pj_tflite_pose_centernet_tf_kpts/image_processor/pose_engine.cpp:215-218 | the reported crop starts inside the image, does not reach past its right or bottom edge, is no larger than the crop, and a crop already inside the image is reported unchanged |
| Detections.StrictMaxOf | pj_tflite_det_dronet/image_processor/detection_engine.cpp:142-150 | the class scan that starts from score 0 and index 0 and moves only on a strictly larger score: the result is at least 0 and at least every score; it is positive exactly when some score is positive, and then it is the first position of the largest score; otherwise the index is 0 |
| Detections.StrictMaxIndexInRange | pj_tflite_det_yolov5_tracking/image_processor/detection_engine.cpp:139-147 | on a non-empty score list the scan's class index is one of the classes |
| Detections.ScanStrictMax | pj_tflite_det_fastestdet/image_processor/detection_engine.cpp:173-181 | the class loop over `count` scores from `base` gives `StrictMaxOf` of those scores |
| Detections.MaxElementOf | pj_tflite_perception_hybrid_nets/image_processor/detection_engine.cpp:201-203 | `std::max_element` gives the first position of the largest value, and 0 on an empty range |
| Detections.ScansAgreeOnPositive | pj_tflite_perception_hybrid_nets/image_processor/detection_engine.cpp:189-203 | when some score is positive, the strict scan and `std::max_element` choose the same index and the same score |
| Detections.Strided | pj_tflite_perception_hybrid_nets/image_processor/detection_engine.cpp:192-193 | reading `count` values `stride` apart: value k is data[start + k * stride] |
| GridDecoding.DecodeRecordMeaning | pj_tflite_det_dronet/image_processor/detection_engine.cpp:139-160 | a record yields a box exactly when its box confidence and its best class score pass their thresholds; the box then has the first best class, the scaled and truncated size, and a centre (in C integer division) at the scaled and truncated record centre |
| GridDecoding.DecodedRecords | pj_tflite_det_fastestdet/image_processor/detection_engine.cpp:170-194 | n records yield at most n boxes |
| GridDecoding.DecodedRecordsMembers | pj_tflite_det_fastestdet/image_processor/detection_engine.cpp:170-194 | a box is decoded from the first n records exactly when one of those records yields it |
| GridDecoding.DecodedRecordsClasses | pj_tflite_det_dronet/image_processor/detection_engine.cpp:144-159 | every decoded box has a class index below the class count and a score that passed the class threshold and is at least 0 |
| GridDecoding.DecodeOne | pj_tflite_det_dronet/image_processor/detection_engine.cpp:139-160 | the loop body for one record gives `DecodeRecord` of that record |
| GridDecoding.DecodeSequence | pj_tflite_det_fastestdet/image_processor/detection_engine.cpp:165-194 | FastestDet's loop, with the read position advanced by 85 floats per record, gives the decoded boxes of the first `num` records in record order |
| GridDecoding.GetBoundingBox | pj_tflite_det_yolov5_tracking/image_processor/detection_engine.cpp:131-163 | the row, column and anchor loops read the grid_h * grid_w * anchors records one after the other, in record order |
| EngineInit.CheckInputTensors | pj_tflite_det_mobilenetssd_v1/image_processor/detection_engine.cpp:93-99 | initialisation succeeds exactly when every input tensor has positive width and height and a type; the older SSD engine (ImageProcessor/DetectionEngine.cpp:90-96) and the DeepLab engine (semantic_segmentation_engine.cpp:81-87) make the same check |
| Yolov5Detection.ScaleOffset | pj_tflite_det_yolov5_tracking/image_processor/detection_engine.cpp:225-232 | scale i's records start where the read position in the output stands after the earlier scales each advanced it by grid_w * grid_h * 3 * 85 floats |
| Yolov5Detection.ScaleOffsetMono | pj_tflite_det_yolov5_tracking/image_processor/detection_engine.cpp:231 | the start offsets grow with the scale index, so every scale lies inside the buffer the last one ends in |
| Yolov5Detection.CandidateClasses | pj_tflite_det_yolov5_tracking/image_processor/detection_engine.cpp:137-156 | every candidate of the three scales names one of the 80 classes and has a score of at least 0.2 |
| Yolov5Detection.ScaleFits | pj_tflite_det_yolov5_tracking/image_processor/detection_engine.cpp:226-231 | the grid_h * grid_w * 3 records of scale i, as `GetBoundingBox` reads them, lie inside the output, and advancing the read position past them reaches scale i + 1's offset |
| Yolov5Detection.DecodeScale | pj_tflite_det_yolov5_tracking/image_processor/detection_engine.cpp:225-231 | one pass over a scale appends that scale's decoded records to the candidates of the earlier scales and moves the read position to the next scale's offset |
| Yolov5Detection.DecodeScales | pj_tflite_det_yolov5_tracking/image_processor/detection_engine.cpp:224-232 | the loop over the scales 8, 16 and 32, with grid_w = width / scale and grid_h = height / scale, yields the records of the three scales one after the other, scaled by the tensor size |
| Yolov5Detection.DivSum | pj_tflite_det_yolov5_tracking/image_processor/detection_engine.cpp:236-239 | integer division of a sum is at least the sum of the divisions |
| Yolov5Detection.AxisInside | pj_tflite_det_yolov5_tracking/image_processor/detection_engine.cpp:236-239 | a span inside [0, tensor size] maps, by `(p * crop_len) / size + origin`, into [origin, origin + crop_len] |
| Yolov5Detection.RescaledInsideCrop | pj_tflite_det_yolov5_tracking/image_processor/detection_engine.cpp:235-241 | a box inside the tensor is mapped inside the crop, keeping its class and score and taking the label of its class |
| Yolov5Detection.RescaleAll | pj_tflite_det_yolov5_tracking/image_processor/detection_engine.cpp:235-241 | the in-place loop replaces each box by its rescaled, labelled copy, box by box |
| Yolov5Detection.RescaledCandidates | pj_tflite_det_yolov5_tracking/image_processor/detection_engine.cpp:223-241 | the rescaled list runs parallel to the candidates, every candidate naming a label of the list |
| Yolov5Detection.PostProcess | pj_tflite_det_yolov5_tracking/image_processor/detection_engine.cpp:176-241 | the crop is the centre crop with the tensor's aspect ratio, and the boxes handed to NMS are the rescaled candidates of the three scales |
| Yolov5Detection.ResultCropInImage | pj_tflite_det_yolov5_tracking/image_processor/detection_engine.cpp:251-254 | the engine reports the crop unclamped; it lies inside the image, so clamping it would change nothing |
| DroNetDetection.CandidateClasses | pj_tflite_det_dronet/image_processor/detection_engine.cpp:144-159 | every candidate of the two scales is class 0 or 1 and has passed the class threshold |
| DroNetDetection.DecodeScales | pj_tflite_det_dronet/image_processor/detection_engine.cpp:215-224 | the loop over the scales 32 and 16 decodes each scale from its own output tensor, read from its start and scaled by the crop size, and appends the boxes in scale order |
| DroNetDetection.AdjustBoxes | pj_tflite_det_dronet/image_processor/detection_engine.cpp:226-231 | every box moves by the crop origin and gets an empty label; nothing else about it changes |
| DroNetDetection.PostProcess | pj_tflite_det_dronet/image_processor/detection_engine.cpp:199-244 | the boxes handed to NMS are the candidates of both scales moved by the Expand crop's origin, with class 0 or 1, and the reported crop is the whole image |
| FastestDetDetection.ProcessCrop | pj_tflite_det_fastestdet/image_processor/detection_engine.cpp:128-133 | Stretch mode from the whole image leaves the crop as the whole image |
| FastestDetDetection.LabelBoxes | pj_tflite_det_fastestdet/image_processor/detection_engine.cpp:197-202 | every box moves by the crop origin and takes the label of its class; nothing else about it changes |
| FastestDetDetection.PostProcess | pj_tflite_det_fastestdet/image_processor/detection_engine.cpp:160-214 | the boxes handed to NMS are the labelled decoded records, at most tensor_dims[1] of them, each with a class below 80 and a score that passed the class gate; the reported crop is the whole image |
| NanoDetDetection.FeatureNum | pj_tflite_det_nanodet/image_processor/detection_engine.cpp:202-206 | feature_num is the class tensor's element count over 80; when that is not positive it is the number of stride-sized cells of the input |
| NanoDetDetection.GridCellRoundTrip | pj_tflite_det_nanodet/image_processor/detection_engine.cpp:263-264 | in a row-major grid, cell (x, y) has number y * grid_w + x, and (i % grid_w, i / grid_w) recovers (x, y) from it |
| NanoDetDetection.GridCellAsWrittenOnSquare | pj_tflite_det_nanodet/image_processor/detection_engine.cpp:263-264 | the written grid_y = i / grid_h is the row-major row whenever grid_w == grid_h, as for the 320x320 input |
| NanoDetDetection.GridCellAsWrittenWrongRow | pj_tflite_det_nanodet/image_processor/detection_engine.cpp:264 | on a 20x10 grid, cell 20 is the first cell of row 1, yet the written grid_y puts it in row 2 |
| NanoDetDetection.DecodeCellMeaning | pj_tflite_det_nanodet/image_processor/detection_engine.cpp:251-270 | a cell yields a box exactly when its best class score is strictly above the threshold; the box then has the first best class, that class's label and its score |
| NanoDetDetection.DecodedCells | pj_tflite_det_nanodet/image_processor/detection_engine.cpp:251-271 | n cells yield at most n boxes |
| NanoDetDetection.DecodedCellsClasses | pj_tflite_det_nanodet/image_processor/detection_engine.cpp:261-269 | every decoded box has a score above the threshold, one of the 80 classes, and that class's label |
| NanoDetDetection.DecodeOneCell | pj_tflite_det_nanodet/image_processor/detection_engine.cpp:252-270 | the loop body for one cell, a class scan from 0 and the strict gate, gives `DecodeCell` of that cell, placed by the as-written `GridCellAsWritten` |
| NanoDetDetection.DecodedCellsStep | pj_tflite_det_nanodet/image_processor/detection_engine.cpp:252-272 | one more cell appends exactly that cell's box, if it has one, after the boxes of the cells before it |
| NanoDetDetection.DecodeNextCell | pj_tflite_det_nanodet/image_processor/detection_engine.cpp:252-272 | one pass of the cell loop extends the boxes of the first i cells to those of the first i + 1 |
| NanoDetDetection.DecodeInfer | pj_tflite_det_nanodet/image_processor/detection_engine.cpp:249-273 | the loop over the grid_w * grid_h cells appends the decoded boxes in cell order, each cell placed at column i % grid_w and, as written, row i / grid_h |
| NanoDetDetection.ClampedInImage | pj_tflite_det_nanodet/image_processor/detection_engine.cpp:226-231 | an adjusted box starts at or after the crop origin, ends inside the image's right and bottom edges, is no larger than before, and keeps class, label and score |
| NanoDetDetection.AdjustAfterNms | pj_tflite_det_nanodet/image_processor/detection_engine.cpp:226-231 | the adjust loop replaces each box of the NMS output by its clamped copy, box by box |
| NanoDetDetection.DecodeStride | pj_tflite_det_nanodet/image_processor/detection_engine.cpp:202-219 | one stride's boxes are exactly that stride's part of the candidates, appended after those of the strides before it |
| NanoDetDetection.DecodeStrides | pj_tflite_det_nanodet/image_processor/detection_engine.cpp:202-219 | the three stride loops compute the feature counts, copy feature_num * 32 regression and feature_num * 80 score values, and decode each stride's grid, scaled by crop size over grid size, in stride order |
| NanoDetDetection.ProcessCropReported | pj_tflite_det_nanodet/image_processor/detection_engine.cpp:165-171 | Cut mode from the whole image is the centre crop, and the reported crop (lines 237-240) is that same rectangle |
| BlazeFaceDetection.LogitEnds | pj_tflite_face_blazeface/image_processor/face_detection_engine.cpp:271-280 | Logit(0) is -FLT_MAX and Logit(1) is FLT_MAX; any other value gives log(x / (1 - x)) |
| BlazeFaceDetection.SigmoidMeaning | pj_tflite_face_blazeface/image_processor/face_detection_engine.cpp:262-269 | both branches of Sigmoid equal 1 / (1 + exp(-x)), which lies strictly between 0 and 1 |
| BlazeFaceDetection.AnchorCount | pj_tflite_face_blazeface/image_processor/face_detection_engine.cpp:80-81 | a 16x16 grid with 2 anchors per cell and an 8x8 grid with 6 give the first layer 512 anchors and 896 in all |
| BlazeFaceDetection.CellIndex | pj_tflite_face_blazeface/image_processor/face_detection_engine.cpp:293-299 | anchor n of cell (x, y) is pushed at position (y * cols + x) * num + n of its layer, inside the layer, and that position gives back column x and row y |
| BlazeFaceDetection.CreateAnchor | pj_tflite_face_blazeface/image_processor/face_detection_engine.cpp:283-303 | the list holds 896 anchors, and anchor k is the centre stride * (g + 0.5) of its cell, the layers in order, each grid row by row |
| BlazeFaceDetection.AnchorBoxes | pj_tflite_face_blazeface/image_processor/face_detection_engine.cpp:306-325 | at most one box per anchor; each box names its anchor index (below n) in class_id and has a score above the threshold |
| BlazeFaceDetection.AnchorBoxesOrder | pj_tflite_face_blazeface/image_processor/face_detection_engine.cpp:308-323 | the boxes come out in anchor order, so each anchor appears at most once |
| BlazeFaceDetection.AnchorBoxesComplete | pj_tflite_face_blazeface/image_processor/face_detection_engine.cpp:309 | anchor i gives a box exactly when its score is strictly above the logit threshold |
| BlazeFaceDetection.GetBoundingBox | pj_tflite_face_blazeface/image_processor/face_detection_engine.cpp:306-325 | the loop over the anchors gives the anchor boxes, with the centre offset by the anchor, corner = centre - size / 2, scaled and truncated |
| BlazeFaceDetection.Keypoints | pj_tflite_face_blazeface/image_processor/face_detection_engine.cpp:235-243 | the six keypoints of a face are regressor[4 + 2k] and regressor[5 + 2k] plus the anchor, scaled to the crop and moved by its origin, in order |
| BlazeFaceDetection.FaceBox | pj_tflite_face_blazeface/image_processor/face_detection_engine.cpp:226-232 | an adjusted face is class 0 with label "FACE" and the sigmoid of its logit score, moved by the crop origin and fixed in the screen |
| BlazeFaceDetection.KeptNamesAnchor | pj_tflite_face_blazeface/image_processor/face_detection_engine.cpp:226-235 | every box NMS keeps from the candidates names an anchor whose regressor block is in the list and whose score passed the threshold, so the keypoint read is in bounds |
| BlazeFaceDetection.AdjustAfterNms | pj_tflite_face_blazeface/image_processor/face_detection_engine.cpp:223-244 | the loop over the NMS output replaces each box by its adjusted face and appends its six keypoints, so the keypoint list runs parallel to the faces |
| BlazeFaceDetection.DecodeFaces | pj_tflite_face_blazeface/image_processor/face_detection_engine.cpp:195-217 | the concatenated tensors with the logit threshold give the anchor boxes, in anchor order, one exactly for each anchor whose score beats the threshold |
| BlazeFaceDetection.ProcessCrop | pj_tflite_face_blazeface/image_processor/face_detection_engine.cpp:159-166 | Expand mode from the whole image gives a crop whose reported form (lines 250-253) is the whole image |
| DBFaceDetection.ProcessCropIsCentreCrop | pj_tflite_face_dbface/image_processor/face_detection_engine.cpp:143-155 | the inline crop is the common centre crop: it lies inside the image and keeps one whole side |
| DBFaceDetection.HeatmapBoxes | pj_tflite_face_dbface/image_processor/face_detection_engine.cpp:205-234 | at most one box per cell; each box names its cell index (below n) in class_id and carries that cell's heatmap score, which reaches the threshold |
| DBFaceDetection.HeatmapBoxesOrder | pj_tflite_face_dbface/image_processor/face_detection_engine.cpp:205-234 | the boxes come out in cell order, so each cell appears at most once |
| DBFaceDetection.HeatmapBoxesComplete | pj_tflite_face_dbface/image_processor/face_detection_engine.cpp:209 | cell i gives a box exactly when its heatmap score is at least the threshold |
| DBFaceDetection.VisitCell | pj_tflite_face_dbface/image_processor/face_detection_engine.cpp:207-232 | one cell extends the heatmap boxes of the cells before it to those of one more cell |
| DBFaceDetection.VisitRow | pj_tflite_face_dbface/image_processor/face_detection_engine.cpp:206-233 | the column loop of one row extends the heatmap boxes of the cells before the row to those up to the row's end |
| DBFaceDetection.DecodeHeatmap | pj_tflite_face_dbface/image_processor/face_detection_engine.cpp:205-234 | the row and column loops over the heatmap, with index = hm_y * hm_w + hm_x, give the heatmap boxes in cell order |
| DBFaceDetection.ExpSpecialOdd | pj_tflite_face_dbface/image_processor/face_detection_engine.cpp:289-300 | ExpSpecial is odd, and with a positive exponential it keeps the sign of its input and maps 0 to 0 |
| DBFaceDetection.KeptNamesCell | pj_tflite_face_dbface/image_processor/face_detection_engine.cpp:242-245 | every box NMS keeps from the candidates names a heatmap cell whose score reached the threshold |
| DBFaceDetection.GetKeypoints | pj_tflite_face_dbface/image_processor/face_detection_engine.cpp:241-262 | the keypoint loop gives five keypoints for each kept face, the face's cell decoded in order, so the keypoint list runs parallel to the faces |
| DBFaceDetection.FaceBox | pj_tflite_face_dbface/image_processor/face_detection_engine.cpp:265-271 | an adjusted face is class 0 with label "FACE", keeps its score, and is moved by the crop origin and fixed in the screen |
| DBFaceDetection.AdjustFaces | pj_tflite_face_dbface/image_processor/face_detection_engine.cpp:265-271 | the adjust loop replaces each kept box by its adjusted face |
| DBFaceDetection.PostProcess | pj_tflite_face_dbface/image_processor/face_detection_engine.cpp:143-238 | the crop is the centre crop and the boxes handed to NMS are the heatmap boxes of the NHWC tensors, one exactly for each cell whose score reaches the threshold |
| SsdDetection.ObjectCorners | pj_tflite_det_mobilenetssd_v1/image_processor/detection_engine.cpp:200-218 | an object's rectangle runs from the corners it was read from, x + width to the right edge and y + height to the bottom edge, scaled by the image size exactly when the width passed is positive; it carries the entry's score and its class's label |
| SsdDetection.ClassShift | pj_tflite_det_mobilenetssd_v1/image_processor/detection_engine.cpp:197 | a whole class value k >= 0 from the model names class k + 1 |
| SsdDetection.ObjectsMembers | pj_tflite_det_mobilenetssd_v1/image_processor/detection_engine.cpp:196-220 | at most n objects come out, and an object is reported exactly when some entry below n has a score not below the threshold and yields it |
| SsdDetection.GetObject | pj_tflite_det_mobilenetssd_v1/image_processor/detection_engine.cpp:193-222 | the loop over the entries, skipping scores below the threshold, gives the objects of the first output_num entries in order; the older engine's getObject (ImageProcessor/DetectionEngine.cpp:190-219) is the same loop |
| SsdDetection.PostProcess | pj_tflite_det_mobilenetssd_v1/image_processor/detection_engine.cpp:162-164 | the entry count is output tensor 3's first float truncated, the threshold is 0.5, and every reported object scores at least 0.5 |
| HybridNetsDetection.PixelClassMeaning | pj_tflite_perception_hybrid_nets/image_processor/detection_engine.cpp:189-205 | every pixel gets one of the three labels; in NHWC it is the first position of the largest of the pixel's three scores; in NCHW a pixel with no positive score is background, and otherwise its label's score is the largest |
| HybridNetsDetection.ClassifyPixel | pj_tflite_perception_hybrid_nets/image_processor/detection_engine.cpp:189-205 | the loop body for one pixel gives that pixel's label: the strict running maximum over the three planes in NCHW, std::max_element of the three scores in NHWC |
| HybridNetsDetection.SegmentationArgMax | pj_tflite_perception_hybrid_nets/image_processor/detection_engine.cpp:185-207 | the row and pixel loops write, in row-major order, the class of every pixel of the input |
| HybridNetsDetection.PriorBoxesMembers | pj_tflite_perception_hybrid_nets/image_processor/detection_engine.cpp:215-254 | at most n boxes come out; a box is produced exactly when some prior's class score reaches the threshold and yields it (centre moved by variance * offset * prior size, size scaled by exp, truncated to crop pixels), and every box is class 0, "Car", with a score at or above the threshold |
| HybridNetsDetection.HybridNetsEngine.constructor | pj_tflite_perception_hybrid_nets/image_processor/detection_engine.cpp:213 | before the first call the prior count is not yet fixed |
| HybridNetsDetection.HybridNetsEngine.NextNumPrior | pj_tflite_perception_hybrid_nets/image_processor/detection_engine.cpp:213 | the prior count of a call is the regression size over 4 on the first call, and the stored count after it |
| HybridNetsDetection.HybridNetsEngine.DecodeBoxes | pj_tflite_perception_hybrid_nets/image_processor/detection_engine.cpp:211-261 | the first call fixes the prior count from the regression size and later calls keep it; the boxes are the prior boxes scaled by crop size over tensor size, each moved by the crop origin |
| HybridNetsDetection.ProcessCrop | pj_tflite_perception_hybrid_nets/image_processor/detection_engine.cpp:145-150 | Stretch mode from the whole image leaves the crop as the whole image, and the reported crop (lines 272-275) is the whole image |
| PaddleSegSegmentation.ClassValue | pj_tflite_seg_paddleseg_cityscapessota/image_processor/segmentation_engine.cpp:169-170 | the map value of a score lies in [0, 1], and is the score over 20 whenever that already lies in [0, 1] |
| PaddleSegSegmentation.ClassValueMonotone | pj_tflite_seg_paddleseg_cityscapessota/image_processor/segmentation_engine.cpp:169-170 | the clamp keeps the order of scores and sends every score at or below 0 to 0 |
| PaddleSegSegmentation.ClassMap | pj_tflite_seg_paddleseg_cityscapessota/image_processor/segmentation_engine.cpp:164-173 | the map of class c holds the clamped value of that class's score at every pixel, read at y * W * 19 + x * 19 + c, in row-major order |
| PaddleSegSegmentation.ClassMaps | pj_tflite_seg_paddleseg_cityscapessota/image_processor/segmentation_engine.cpp:161-174 | there are 19 maps of the image's size, map c holding each pixel's clamped class-c value |
| PaddleSegSegmentation.ArgMax | pj_tflite_seg_paddleseg_cityscapessota/image_processor/segmentation_engine.cpp:178-195 | the argmax map holds, in row-major order, each pixel's strict running maximum from 0 over its 19 scores |
| PaddleSegSegmentation.PixelArgMax | pj_tflite_seg_paddleseg_cityscapessota/image_processor/segmentation_engine.cpp:182-190 | the class loop of pixel (x, y) gives that pixel's label |
| PaddleSegSegmentation.AppendPixel | pj_tflite_seg_paddleseg_cityscapessota/image_processor/segmentation_engine.cpp:180-192 | pushing the label of pixel (x, y) after those of the pixels before it in row-major order keeps every label that of its pixel |
| PaddleSegSegmentation.ArgMaxHasLargestMap | pj_tflite_seg_paddleseg_cityscapessota/image_processor/segmentation_engine.cpp:161-195 | every label is one of the 19 classes and has the largest clamped map value of its pixel; where some score is positive it is the first largest score, and where none is, the label is class 0 and every map holds 0 there |
| RvmSegmentation.ValueList | pj_tflite_seg_robust_video_matting/image_processor/segmentation_engine.cpp:155-157 | the value list holds the first H * W * 19 floats of the output tensor, unchanged |
| RvmSegmentation.ScoreList | pj_tflite_seg_robust_video_matting/image_processor/segmentation_engine.cpp:170-172 | the score list of a pixel has 19 entries, entry c being the softmax output c over the pixel's 19 scores at offset y * W * 19 + x * 19 |
| RvmSegmentation.PixelClassMeaning | pj_tflite_seg_robust_video_matting/image_processor/segmentation_engine.cpp:193-196 | the label is one of the 19 classes and is the first position of the largest raw score of its pixel |
| RvmSegmentation.PixelClassHasLargestScore | pj_tflite_seg_robust_video_matting/image_processor/segmentation_engine.cpp:170-197 | with a softmax that keeps the order of a pixel's scores, the label's score map holds that pixel's largest value among the 19 maps |
| RvmSegmentation.ZeroMaps | pj_tflite_seg_robust_video_matting/image_processor/segmentation_engine.cpp:161-164 | the score loop starts from 19 maps of H * W zeros |
| RvmSegmentation.WritePixel | pj_tflite_seg_robust_video_matting/image_processor/segmentation_engine.cpp:173-175 | the channel loop of one pixel writes score c into map c at that pixel, leaving everything else as it was |
| RvmSegmentation.ScoreMaps | pj_tflite_seg_robust_video_matting/image_processor/segmentation_engine.cpp:160-185 | after the row and pixel loops there are 19 maps of the image's size, map c holding score c of every pixel |
| RvmSegmentation.ArgMax | pj_tflite_seg_robust_video_matting/image_processor/segmentation_engine.cpp:189-199 | the argmax map holds every pixel's label, in row-major order |
| DeepLabSegmentation.Int32Of | pj_tflite_ss_deeplabv3_mnv2/image_processor/semantic_segmentation_engine.cpp:156 | the cast of an int64 class id gives a value in the int32 range that agrees with the id modulo 2^32, and leaves an id already in range unchanged |
| DeepLabSegmentation.ColourOf | pj_tflite_ss_deeplabv3_mnv2/image_processor/semantic_segmentation_engine.cpp:157-162 | each of the three bytes of a class's colour lies in 0 .. 255 |
| DeepLabSegmentation.Remainders | pj_tflite_ss_deeplabv3_mnv2/image_processor/semantic_segmentation_engine.cpp:157-159 | a class keeps its remainders modulo 2, 3 and 4 when first reduced modulo 12 |
| DeepLabSegmentation.ColourPeriod | pj_tflite_ss_deeplabv3_mnv2/image_processor/semantic_segmentation_engine.cpp:157-162 | the colour of class c is the palette entry of c modulo 12, so classes c and c + 12 look alike |
| DeepLabSegmentation.PaletteEntry | pj_tflite_ss_deeplabv3_mnv2/image_processor/semantic_segmentation_engine.cpp:157-162 | each of classes 0 to 11 is painted with its own entry of the twelve-colour palette |
| DeepLabSegmentation.ColourSharedIff | pj_tflite_ss_deeplabv3_mnv2/image_processor/semantic_segmentation_engine.cpp:157-162 | two classes share a colour exactly when they agree modulo 12 |
| DeepLabSegmentation.PaintPixel | pj_tflite_ss_deeplabv3_mnv2/image_processor/semantic_segmentation_engine.cpp:156-162 | the loop body for one pixel writes its B, G and R bytes at (y * W + x) * 3 + 0, 1, 2 and touches no other byte |
| DeepLabSegmentation.PaintMask | pj_tflite_ss_deeplabv3_mnv2/image_processor/semantic_segmentation_engine.cpp:149-165 | the mask is a fresh image of H * W * 3 bytes, all zero at first, in which every byte ends up as its pixel's colour component; the first double loop changes nothing |
| DeepLabSegmentation.MaskPixel | pj_tflite_ss_deeplabv3_mnv2/image_processor/semantic_segmentation_engine.cpp:160-162 | the three bytes of every pixel are the palette entry of its class modulo 12 |
| CameraCalibration.ClassList | pj_tflite_camera_deep_calib/image_processor/camera_calibration_engine.cpp:118-119 | the push_back loop gives the values start, start + step, ... that stay below the end, and the next value would not |
| CameraCalibration.ClassLists | pj_tflite_camera_deep_calib/image_processor/camera_calibration_engine.cpp:118-119 | the two loops of Initialize build the distortion list from 0 below 60/50 in steps of 1/50 and the focal list from 40 below 501 in steps of 10 |
| CameraCalibration.SteppedLength | pj_tflite_camera_deep_calib/image_processor/camera_calibration_engine.cpp:118-119 | such a list has exactly as many entries as there are steps that stay below the end |
| CameraCalibration.FocalListValues | pj_tflite_camera_deep_calib/image_processor/camera_calibration_engine.cpp:60-62 | the focal class list is 40, 50, ..., 500: 47 entries |
| CameraCalibration.DistListValues | pj_tflite_camera_deep_calib/image_processor/camera_calibration_engine.cpp:56-58 | the distortion class list is 0, 1/50, ..., 59/50: 60 entries |
| CameraCalibration.Iota | pj_tflite_camera_deep_calib/image_processor/camera_calibration_engine.cpp:223-224 | std::iota fills a fresh index list with 0 .. n-1 in order |
| CameraCalibration.Swap | pj_tflite_camera_deep_calib/image_processor/camera_calibration_engine.cpp:225-227 | a swap exchanges two entries, leaves the others as they were, and keeps the list a permutation |
| CameraCalibration.Insert | pj_tflite_camera_deep_calib/image_processor/camera_calibration_engine.cpp:225-227 | one insertion step extends the prefix sorted by decreasing value by one entry and keeps the list a permutation of the indices |
| CameraCalibration.SortByValue | pj_tflite_camera_deep_calib/image_processor/camera_calibration_engine.cpp:225-227 | the sort with comparator values[i1] > values[i2] leaves the indices ordered by decreasing value, a permutation of what they were |
| CameraCalibration.GetMaxIndex | pj_tflite_camera_deep_calib/image_processor/camera_calibration_engine.cpp:220-230 | the first index after the argsort holds a largest value of the list |
| CameraCalibration.MaxIndexAgrees | pj_tflite_camera_deep_calib/image_processor/camera_calibration_engine.cpp:220-230 | any index GetMaxIndex may return holds the value of std::max_element's position, and is that position when the largest value occurs once |
| CameraCalibration.RegressionRange | pj_tflite_camera_deep_calib/image_processor/camera_calibration_engine.cpp:196-204 | the regression outputs give xi = out * 1.2 and f = out * (500 + 1 - 40) + 40, scaled by crop width over tensor width: 0 gives 40 and 1 gives 501 on the tensor's scale, f grows with the output, and xi lies in [0, 1.2] for an output in [0, 1] |
| CameraCalibration.ClassificationResult | pj_tflite_camera_deep_calib/image_processor/camera_calibration_engine.cpp:185-193 | the classification variant takes the distortion and focal classes at indices holding the largest scores, the focal length scaled as in the regression variant (line 204) |
| LaneEngine.ProcessCropBottom | pj_tflite_lane_lanenet-lane-detection/image_processor/lane_engine.cpp:159-162 | the crop is the full width with height cols / 2, ending at the image's bottom edge; it lies inside the image exactly when the image is at least cols / 2 tall, and otherwise starts above the image (where the source's ROI throws); when inside, the reported crop (lines 240-243) is the strip itself |
| LaneEngine.BinaryByte | pj_tflite_lane_lanenet-lane-detection/image_processor/lane_engine.cpp:205 | the byte stored for a class value is 255 times the value modulo 256, in 0 .. 255 |
| LaneEngine.BinaryByteMeaning | pj_tflite_lane_lanenet-lane-detection/image_processor/lane_engine.cpp:205 | class 1 becomes 255 and class 0 stays 0; in general the byte is 255 exactly when the class is 1 modulo 256 |
| LaneEngine.BinaryImage | pj_tflite_lane_lanenet-lane-detection/image_processor/lane_engine.cpp:203-206 | the copy loop writes the byte of every class value, in order |
| LaneEngine.HitsMembers | pj_tflite_lane_lanenet-lane-detection/image_processor/lane_engine.cpp:269-274 | a pixel index is gathered exactly when its mask byte is 255, and the indices come in strictly increasing row-major order |
| LaneEngine.GatherPixelEmbeddingFeatures | pj_tflite_lane_lanenet-lane-detection/image_processor/lane_engine.cpp:261-285 | the row and column loops append, for every pixel equal to 255 and in row-major order, its point and a not-yet-classified sample of its four embedding floats |
| LaneEngine.GatheredPoints | pj_tflite_lane_lanenet-lane-detection/image_processor/lane_engine.cpp:261-285 | the two lists have the same length; a point is listed exactly when it lies in the 512 x 256 mask with byte 255, and sample i carries the features of point i |
| LaneEngine.ShuffleAsWritten | pj_tflite_lane_lanenet-lane-detection/image_processor/lane_engine.cpp:288-309 | as written the shuffle leaves the caller's vectors as they were: both are taken by value, and the reserved index vector is empty, so the copy loop never runs |
| LaneEngine.Permuted | pj_tflite_lane_lanenet-lane-detection/image_processor/lane_engine.cpp:305-308 | reordering by an index vector gives entry i = src[indexes[i]] |
| LaneEngine.Shuffle | pj_tflite_lane_lanenet-lane-detection/image_processor/lane_engine.cpp:288-309 | the intended shuffle leaves empty inputs alone and otherwise reorders both vectors by the same permutation |
| LaneEngine.PermutedPairs | pj_tflite_lane_lanenet-lane-detection/image_processor/lane_engine.cpp:305-308 | the intended shuffle keeps every (point, sample) pair: each output pair is an input pair and each input pair appears in the output |
| LaneEngine.ShuffleMovesPoints | pj_tflite_lane_lanenet-lane-detection/image_processor/lane_engine.cpp:288-309 | the intended shuffle can reorder points: the permutation [1, 0] swaps (0, 0) and (1, 0) |
| LaneEngine.MeanOf | pj_tflite_lane_lanenet-lane-detection/image_processor/lane_engine.cpp:341-361 | the mean vector is empty for no samples, and otherwise has one entry per feature of the first sample |
| LaneEngine.StddevOf | pj_tflite_lane_lanenet-lane-detection/image_processor/lane_engine.cpp:311-339 | the deviation vector is empty for no samples, and otherwise has one entry per feature of the first sample |
| LaneEngine.MeanFeatureVector | pj_tflite_lane_lanenet-lane-detection/image_processor/lane_engine.cpp:341-361 | the accumulation and division loops give the average of every feature |
| LaneEngine.StddevFeatureVector | pj_tflite_lane_lanenet-lane-detection/image_processor/lane_engine.cpp:311-339 | the accumulation, division and square-root loops give the square root of the mean squared distance to the mean, for every feature |
| LaneEngine.ConstantFeature | pj_tflite_lane_lanenet-lane-detection/image_processor/lane_engine.cpp:325-358 | a feature equal to v in the first n samples sums to n * v and has squared distances to v summing to 0 |
| LaneEngine.MeanOfConstant | pj_tflite_lane_lanenet-lane-detection/image_processor/lane_engine.cpp:341-361 | the mean of a feature that is constant over the samples is that constant |
| LaneEngine.SumSqNonNegative | pj_tflite_lane_lanenet-lane-detection/image_processor/lane_engine.cpp:325-335 | the squared distances never sum to a negative value, so the square root is taken of a non-negative number |
| LaneEngine.NormalizedOf | pj_tflite_lane_lanenet-lane-detection/image_processor/lane_engine.cpp:371-378 | normalising keeps the number of samples |
| LaneEngine.NormalizeSampleFeatures | pj_tflite_lane_lanenet-lane-detection/image_processor/lane_engine.cpp:363-380 | every feature of every sample is moved by the mean and divided by the deviation of the samples; flags are kept and no samples give no samples |
| LaneEngine.SumNormalized | pj_tflite_lane_lanenet-lane-detection/image_processor/lane_engine.cpp:372-378 | moving by m and dividing by s distributes over the sum of a feature: the normalised sum is (sum - n * m) / s |
| LaneEngine.NormalizedStep | pj_tflite_lane_lanenet-lane-detection/image_processor/lane_engine.cpp:375 | adding one more normalised value to a normalised sum gives the normalised sum of one more sample |
| LaneEngine.NormalizedMeanZero | pj_tflite_lane_lanenet-lane-detection/image_processor/lane_engine.cpp:363-380 | after normalisation every feature sums, and so averages, to zero |
| LaneEngine.ClusterPixelEmbeddingFeatures | pj_tflite_lane_lanenet-lane-detection/image_processor/lane_engine.cpp:382-395 | with no samples the outputs are left as they were; otherwise they are DBSCAN's result with min points 4, radius 0.4 and at most 500 neighbours |
| StyleTransfer.DecimalString | pj_tflite_style_transfer/image_processor/image_processor.cpp:152 | `std::to_string` of a non-negative index is a non-empty string of decimal digits |
| StyleTransfer.DecimalRoundTrip | pj_tflite_style_transfer/image_processor/image_processor.cpp:152 | the decimal string of a number reads back as that number |
| StyleTransfer.StyleFileName | pj_tflite_style_transfer/image_processor/image_processor.cpp:152 | the file name is "style", the decimal digits of the index, then ".jpg" |
| StyleTransfer.StyleFileNamesDistinct | pj_tflite_style_transfer/image_processor/image_processor.cpp:152 | distinct style indices give distinct file names |
| StyleTransfer.NextIndex | pj_tflite_style_transfer/image_processor/image_processor.cpp:136-151 | exactly the commands 0, 1 and 2 are accepted, and an accepted command keeps the index in 0 .. 30 |
| StyleTransfer.NextIndexSteps | pj_tflite_style_transfer/image_processor/image_processor.cpp:136-151 | command 0 moves to the next style and stops at 30, command 1 moves to the previous one and stops at 0, command 2 goes back to 0; next then previous returns to the same style, and so does previous then next |
| StyleTransfer.Merged | pj_tflite_style_transfer/image_processor/image_processor.cpp:170-175 | every entry of the merged bottleneck is 0.5 of the frame's entry plus (1 - 0.5) of the style's |
| StyleTransfer.MergedBetween | pj_tflite_style_transfer/image_processor/image_processor.cpp:170-175 | every merged value lies between the two it is merged from, and merging a bottleneck with itself leaves it unchanged |
| StyleTransfer.InitializeSelectsFirstStyle | pj_tflite_style_transfer/image_processor/image_processor.cpp:81-107 | from start-up with both engines initialised, Initialize returns 0 and selects style 1; its bottleneck is loaded exactly when style1.jpg under the work directory's style folder can be read |
| StyleTransfer.InitializeGuards | pj_tflite_style_transfer/image_processor/image_processor.cpp:83-102 | a second Initialize is refused and changes nothing; a failing engine gives -1 and leaves the front-end uninitialised |
| StyleTransfer.CommandOutcome | pj_tflite_style_transfer/image_processor/image_processor.cpp:128-156 | the index stays in 0 .. 30; 0 is returned exactly for a known command once initialised; a refusal changes nothing; on success the index is the switch's next index |
| StyleTransfer.CommandLoadsStyle | pj_tflite_style_transfer/image_processor/image_processor.cpp:63-79 | a successful command reads the style file of the new index; a readable file replaces the bottleneck and sets the flag, an unreadable one leaves both unchanged |
| StyleTransfer.UpdatedStaysSet | pj_tflite_style_transfer/image_processor/image_processor.cpp:49-77 | once the update flag is set, neither Command, Initialize nor Process clears it |
| StyleTransfer.MergesEveryFrame | pj_tflite_style_transfer/image_processor/image_processor.cpp:169-175 | once initialised with the flag set, every Process call merges the current frame's bottleneck, whatever the counter says |
| StyleTransfer.ProcessCounter | pj_tflite_style_transfer/image_processor/image_processor.cpp:159-176 | without engines Process returns -1 and changes nothing; otherwise it returns 0 and advances the counter, and the merged bottleneck changes only when a merge is due |
| StyleTransfer.CorrectedMergeSchedule | pj_tflite_style_transfer/image_processor/image_processor.cpp:169-176 | with the flag cleared after the merge, a new style is merged in on the next frame and after that only every tenth frame |
| StyleTransfer.CorrectedAgreesWhenDue | pj_tflite_style_transfer/image_processor/image_processor.cpp:169-176 | on a frame whose merge is due, the intended Process and the as-written one agree except for the flag |
| StyleTransfer.ImageProcessor.constructor | pj_tflite_style_transfer/image_processor/image_processor.cpp:45-49 | at start-up there are no engines, the bottlenecks are zero, the index and counter are 0, and the update flag is set |
| StyleTransfer.ImageProcessor.CalculateStyleBottleneck | pj_tflite_style_transfer/image_processor/image_processor.cpp:63-79 | an unreadable style file returns -1 and changes nothing; otherwise the prediction is copied into the bottleneck, the flag is set, and 0 is returned |
| StyleTransfer.ImageProcessor.Command | pj_tflite_style_transfer/image_processor/image_processor.cpp:128-156 | the new state and return value are those of the command step |
| StyleTransfer.ImageProcessor.Initialize | pj_tflite_style_transfer/image_processor/image_processor.cpp:81-107 | the new state and return value are those of the initialisation step |
| StyleTransfer.ImageProcessor.Finalize | pj_tflite_style_transfer/image_processor/image_processor.cpp:109-125 | -1 when not initialised or when either engine's finalize fails, otherwise 0 |
| StyleTransfer.ImageProcessor.Process | pj_tflite_style_transfer/image_processor/image_processor.cpp:159-190 | the new state is the intended Process step, which clears the flag after a merge; the output frame is the transfer of the merged bottleneck, and there is none when the front-end is not initialised |
| StyleTransferLegacy.LegacyCommandOutcome | pj_tflite_style_transfer/ImageProcessor/ImageProcessor.cpp:84-107 | the index stays in 0 .. 30; -1 is returned, with nothing changed, exactly for an unknown command; otherwise the index is the switch's next index |
| StyleTransferLegacy.LegacyCommandLoadsStyle | pj_tflite_style_transfer/ImageProcessor/ImageProcessor.cpp:49-62 | the command reads style<index>.jpg from the work directory's ../style folder; a readable file replaces the bottleneck and an unreadable one leaves it; nothing else changes |
| StyleTransferLegacy.LegacyInitializeSelectsFirstStyle | pj_tflite_style_transfer/ImageProcessor/ImageProcessor.cpp:64-73 | initialisation returns 0, stores the work directory and selects style 1 with the counter at 0 |
| StyleTransferLegacy.LegacySchedule | pj_tflite_style_transfer/ImageProcessor/ImageProcessor.cpp:110-121 | after n Process calls the counter is n, and the merged bottleneck comes from the frame of the last call whose number is a multiple of 30; the style, index and work directory are unchanged |
| StyleTransferLegacy.LegacyNoMergeBetween | pj_tflite_style_transfer/ImageProcessor/ImageProcessor.cpp:115-120 | a call whose counter is not a multiple of 30 keeps the merged bottleneck; one whose counter is a multiple of 30 merges the frame's bottleneck with the style's |
| StyleTransferLegacy.LegacyImageProcessor.constructor | pj_tflite_style_transfer/ImageProcessor/ImageProcessor.cpp:35-38 | at start-up the bottlenecks are zero, the index and counter are 0, and the work directory is empty |
| StyleTransferLegacy.LegacyImageProcessor.CalculateStyleBottleneck | pj_tflite_style_transfer/ImageProcessor/ImageProcessor.cpp:49-62 | an unreadable file returns -1 and changes nothing; otherwise the prediction is copied into the bottleneck and 0 is returned |
| StyleTransferLegacy.LegacyImageProcessor.Command | pj_tflite_style_transfer/ImageProcessor/ImageProcessor.cpp:84-107 | the new state and return value are those of the legacy command step |
| StyleTransferLegacy.LegacyImageProcessor.Initialize | pj_tflite_style_transfer/ImageProcessor/ImageProcessor.cpp:64-73 | the new state and return value are those of the legacy initialisation step |
| StyleTransferLegacy.LegacyImageProcessor.Process | pj_tflite_style_transfer/ImageProcessor/ImageProcessor.cpp:110-124 | the new state is the legacy Process step; 0 is returned with the transfer of the merged bottleneck |
| CenterNetPose.BoxAtCorner | pj_tflite_pose_centernet_tf_kpts/image_processor/pose_engine.cpp:176-187 | the box sits at the truncated scaled corner, within one pixel, from the crop origin; ordered raw corners give a non-negative size; the class id is the entry index, the score is the entry's, and the label is empty |
| CenterNetPose.CornerAxis | pj_tflite_pose_centernet_tf_kpts/image_processor/pose_engine.cpp:183-186 | a truncated scaled coordinate lies within one pixel below the scaled value of a non-negative normalised position, measured from the crop origin, and ordered ends give a non-negative length |
| CenterNetPose.BoxAtX | pj_tflite_pose_centernet_tf_kpts/image_processor/pose_engine.cpp:183-185 | x and w of an entry's box follow from raw values 1 and 3 over the crop width in that way |
| CenterNetPose.BoxAtY | pj_tflite_pose_centernet_tf_kpts/image_processor/pose_engine.cpp:184-186 | y and h of an entry's box follow from raw values 0 and 2 over the crop height in that way |
| CenterNetPose.CandidatesMembers | pj_tflite_pose_centernet_tf_kpts/image_processor/pose_engine.cpp:174-188 | a box is a candidate exactly when some entry below num_det reaches the threshold and yields it; the candidates are in increasing entry order and each remembers an entry below num_det |
| CenterNetPose.GetBoxes | pj_tflite_pose_centernet_tf_kpts/image_processor/pose_engine.cpp:174-188 | the loop returns exactly the candidates |
| CenterNetPose.KeypointOffsetRoundTrip | pj_tflite_pose_centernet_tf_kpts/image_processor/pose_engine.cpp:201-204 | the offsets of keypoint key of entry index decode back into the entry and the keypoint, for the y, x and score tensors |
| CenterNetPose.KeypointOffsetsDistinct | pj_tflite_pose_centernet_tf_kpts/image_processor/pose_engine.cpp:201-204 | two distinct (entry, keypoint) pairs never read the same coordinate or the same score |
| CenterNetPose.KeypointsOf | pj_tflite_pose_centernet_tf_kpts/image_processor/pose_engine.cpp:200-205 | an entry has 17 keypoints |
| CenterNetPose.KeypointScoresOf | pj_tflite_pose_centernet_tf_kpts/image_processor/pose_engine.cpp:204 | an entry has 17 scores, score key read at index * 17 + key |
| CenterNetPose.ReadKeypoints | pj_tflite_pose_centernet_tf_kpts/image_processor/pose_engine.cpp:197-206 | the loop returns the entry's keypoints in image pixels and its scores |
| CenterNetPose.KeypointLists | pj_tflite_pose_centernet_tf_kpts/image_processor/pose_engine.cpp:194-208 | the two lists run parallel to the boxes NMS keeps, entry j holding the keypoints and scores of the entry box j remembers |
| CenterNetPose.KeptKeypointsFit | pj_tflite_pose_centernet_tf_kpts/image_processor/pose_engine.cpp:190-199 | whatever NMS keeps of the candidates, the keypoints of every kept box can be read from tensors that hold num_det entries |
| CenterNetPose.PostProcess | pj_tflite_pose_centernet_tf_kpts/image_processor/pose_engine.cpp:164-218 | the candidates are those of num_det entries over the Expand crop, every one at or above the threshold and remembering an entry below num_det; the reported crop is the whole image |

## Left out

- Model inference, model loading and the OpenCV image operations are left out because they are foreign code. This covers resizing, colour conversion, drawing and the trackers. Their outputs are inputs of the model.
- Timing and the FPS display are left out because they are I/O.
- PalmEngines.PalmDetectionEngine.Process: the anchor generation (`GenerateAnchors`) is foreign code, so the anchors are whatever Initialize was given.
- PalmEngines.PalmDetectionEngine.Process: the legacy engine's palms carry the detection's score, where the source copies an indeterminate value (`PalmEngines.LegacyPalmScoreLost`); an indeterminate value has no model.
- PalmEngines.PalmDetectionEngine.Process: the legacy engine calls its helper without a null check, so Process before a successful Initialize is undefined in the source; the model returns `Error`.
- PalmEngines.PalmDetectionEngine.Finalize: the legacy engine likewise finalizes its helper unchecked and returns 0; before Initialize the model returns failure, where the source's behaviour is undefined.
- The `checkIfPointing` gradient arithmetic is left out. Only its verdict in {-1, 0, 1} reaches the state machine, and it is an input.
- HandImageProcessing.ImageProcessor.Process: the int32 frame counter never wraps in the model.
- HandImageProcessing.ImageProcessor.Process: the landmark result read when the landmark model did not run is uninitialised in the source. It is the same input as otherwise.
- HandImageProcessing.ImageProcessor.SelectArea: in the current AR probe demo the tracker creation is commented out, and `init` is then called on an unset tracker. The model records the tracker as unset and goes on.
- HandImageProcessing.ChooseTracker: the int32 product of the area's sides is not wrapped.
- HandImageProcessing.ImageProcessor.Process: the classification of the selected area is an input string.
- The Kalman filters are left out because they are floating-point numerics. What each filter returns when a track is predicted or updated is an input of `Update`: an estimate per track (`pe` and `ue`), in the YOLOv5 tracker a float filter state truncated to int, and in the YOLOv5 tracking demo a `Filtered` record of the four scalar filters.
- The Hungarian solver (`HungarianAlgorithm`) and `BoundingBoxUtils::CalculateIoU` are not shown in the source, so the solver's assignment and the IoU are inputs of the model. `sqrt` in the DeepSORT cosine is an input too.
- The tracker headers of the YOLOX, YOLOv5 and BlazeFace demos are not part of this model. Their constants (history bound, maximum cost, deletion threshold, IoU threshold) are constructor parameters; the BlazeFace defaults of 2 and 0.3 come from its constructor.
- The DeepSORT header declares features as fixed arrays and a three-parameter constructor that the .cpp does not define. The model follows the .cpp: a feature is a vector of any length, and the constructor takes the deletion threshold.
- DeepSortTracker.CauchySchwarz: stated only when the second vector has a non-zero norm, the only case `Cosine` needs.
- DeepSortTracker.CosineRange: `val == 999` is compared on reals, so float rounding that could turn a valid similarity into exactly 999 is not modelled.
- The int32 track id counters never wrap in the model.
- Loading and running the models is foreign code in all five back ends: building the TensorFlow Lite model, interpreter and delegates, building or deserialising the TensorRT engine, creating the MNN interpreter and session, loading the ncnn network and reading the ONNX file for OpenCV. Where the source branches on the outcome, it is a boolean input (`interpreterReady`, `engineReady`, `netLoaded`) or the set of files the ncnn loader accepts.
- MnnHelper.Initialize: the failures of `createFromFile` and `createSession` are not modelled; the model starts once the session exists.
- The `invoke` of the TensorFlow Lite and TensorRT helpers runs the engine and copies between host and CUDA buffers, and their `finalize` releases memory. Both are foreign calls and are left out, as are `setNumThread`, `setCustomOps` and `displayModelInfo`, which only store a value or print.
- The image operations the MNN, ncnn and OpenCV helpers configure (`ImageProcess::convert`, `from_pixels`, `from_pixels_resize`, `substract_mean_normalize`, `resize`, `cvtColor`, `blobFromImage`, `forward`) are OpenCV or engine code. The model records which operation is chosen and with which parameters, and takes the resulting mats as inputs.
- The `data` fields of the tensor descriptions are not modelled, except where the source loops over the data itself: dequantising, normalising, permuting and copying.
- The folding of mean and norm at the end of the TensorFlow Lite, MNN and OpenCV `initialize` is `InferenceHelper.ConvertNormalizeParameters`; the `Initialize` methods of those back ends return the descriptions before it.
- InferenceHelper.ConvertNormalizeParameters: requires non-zero norms for image inputs, because the source divides by them.
- InferenceHelper.TensorInfo.GetDataAsFloat: requires the data, and a float buffer that already exists, to hold the element count, which the source assumes without a check.
- TfliteHelper.NormalizeImageInto: requires a mean and a norm for each channel; the source reads them from arrays of three.
- TensorRtHelper.NormalizeToNchwInto: requires a mean and a norm for each channel, as above.
- TfliteHelper.InputTensorUpdate: requires a fixed model tensor to have four dimensions when the size is taken from it, because the source reads entries 0 to 3.
- TensorRtHelper.TrtHelper.PreProcess: requires every input id to name a host buffer, because the source indexes the buffer list with the id without a check.
- TensorRtHelper.BufferBytes: a HALF binding gets 4 bytes per element, as `sizeof(float_t)` in the source gives it; this over-allocates and is not a fault.
- OpenCvHelper.Initialize: the first layer and the layer list of the network are inputs, and the id `getLayerId` returns for the first layer's name is taken to be that layer's id.
- The int32 products of tensor dimensions (element counts and byte sizes) never overflow in the model.
- The resize, the colour conversion and the drawing in `CommonHelper::CropResizeCvt` and in the engines are OpenCV calls. The model keeps only how the crop passed by reference changes.
- `BoundingBoxUtils::Nms` and `BoundingBoxUtils::FixInScreen` are not part of this model. In the detection engines the boxes NMS keeps are an input, related to the candidates only by `SelectedFrom`, and `FixInScreen` is a function parameter in the BlazeFace and DBFace adjustments.
- NanoDetDetection.DecodeInfer: the softmax over the 8 bins of each distribution uses `fast_exp`, a floating-point kernel. Its expectation is the parameter `meanBin`.
- `exp` and `log` in the face engines and the softmax in the RVM engine are function parameters. Where a contract needs `exp` positive or the softmax order-preserving, that is a requirement on the parameter.
- The DroNet V1 configuration under `#if defined(MODEL_TYPE_V1)` in pj_tflite_det_dronet/image_processor/detection_engine.cpp:46-59 is not modelled. The model follows the V3 configuration the engine builds by default.
- SsdDetection.GetObject: a class id outside the label list is undefined behaviour in C++. The model gives such an object the empty label.
- DeepLabSegmentation.PaintMask: requires every class id to be non-negative (`ClassesPaintable`). In C++ a negative id gives a negative remainder, and so a negative colour ratio whose conversion to `uint8_t` is undefined behaviour.
- CameraCalibration.ClassList: the float accumulation `i += step` is exact on reals. Float rounding of the accumulated value is not modelled.
- CameraCalibration.GetMaxIndex: requires a non-empty score list, because the source reads the first sorted index without a check.
- CameraCalibration.ClassificationResult: requires the class lists to cover every score index, because the source indexes them without a check. This variant is not compiled in the shipped build.
- LaneEngine.NormalizeSampleFeatures: requires a non-zero deviation in every feature (`Spread`), because the source divides by it.
- LaneEngine: `std::random_shuffle` and `std::sqrt` are parameters (a permutation and a square root), and DBSCAN is a function parameter of `ClusterPixelEmbeddingFeatures`. The drawing of the clusters (`visualize_instance_segmentation_result`, pj_tflite_lane_lanenet-lane-detection/image_processor/lane_engine.cpp:397-424) and the resizing and copying of the two result images (lines 220-234) are OpenCV calls and are left out.
- StyleTransfer.ImageProcessor.Process: clears the update flag after a merge, which is the intended behaviour. The as-written step, which never clears it, is `StyleTransfer.ProcessStep`, and its consequence is shown by `StyleTransfer.MergesEveryFrame`.
- The int32 frame counters of the style transfer front-ends never wrap in the model.
- StyleTransferLegacy: `ImageProcessor_finalize` only calls the engines' `finalize` and returns 0, so it is not modelled. The conversion of the transfer result to an 8-bit image (pj_tflite_style_transfer/ImageProcessor/ImageProcessor.cpp:125-128) is an OpenCV call, so the output frame is the transfer engine's result.
- The preprocessing timings and FPS text of the detection, segmentation and pose engines are left out because they are clock readings.

## Findings

| source | as written | input that shows it | evidently intended | confidence | as-written member | corrected member |
|---|---|---|---|---|---|---|
| pj_tflite_hand_mediapipe/image_processor/palm_detection_engine.cpp:283-296 | the overlap extents of CalculateIoU are not clamped at 0, and the same holds in the other three palm engines | boxes (0,0,1,1) and (2,2,1,1) overlap nowhere, yet each extent is -1, the product is 1 and the IoU is 1 | a zero overlap for disjoint boxes | not executed | PalmNms.IoUAsWrittenOverlapsDisjointBoxes | PalmNms.IoUProperties |
| pj_tflite_hand_mediapipe/image_processor/palm_detection_engine.cpp:199-202 | `for (auto kp : ...)` scales copies, so the keypoints stay normalised and the rotation is computed in the unit square | a 200x100 image with a palm on the diagonal: rotation vector (-0.5, 0.5) instead of (-50, 100) | keypoints scaled to pixels before the rotation, like the box | not executed | PalmEngines.RotationUsesUnscaledKeypoints | PalmEngines.ScaledRotationVector |
| pj_tflite_hand_mediapipe/ImageProcessor/PalmDetection.cpp:166-167 | the `PALM palm` declared in the loop shadows the detection, so `palm.score = palm.score` copies an indeterminate value | any detection: its score never reaches the palm | the palm takes the detection's score | not executed | PalmEngines.LegacyPalmScoreLost | PalmEngines.PalmInImage |
| pj_tflite_arprobe/image_processor/image_processor.cpp:58-66 | `Rect::fix` limits the width by W - x with the unclamped x, and the same holds in the other three front-ends | x = -10, width = 105 in a 100-wide image: fixed to x = 0, width 105 | the width limited by what is left of the image right of the clamped x | not executed | HandImageProcessing.FixAsWrittenLeavesImage | HandImageProcessing.Fix |
| pj_tflite_det_yolox/image_processor/tracker.cpp:190-191 | the greedy loop skips a detection only when `track_index_for_det[i_det] > 0`, so a detection taken by track 0 stays open | two tracks that both overlap one detection with IoU 0.9: both take it and both are updated with it | skip every detection that already has an owner (`>= 0`) | not executed | YoloxTracker.AsWrittenSharesDetection | YoloxTracker.AssignmentOneToOne |
| pj_tflite_det_yolov5/image_processor/tracker.cpp:304-309 | new tracks are opened from the solver's `track_index_for_det`, not from the accepted matches | one track of class 0 and one detection of class 1: the solver pairs them, the cost gate rejects the pair, and the detection neither updates the track nor opens one | open a track for every detection no track accepted, as the BlazeFace and DeepSORT trackers do with `is_det_assigned_list` | not executed | Yolov5Tracker.AsWrittenDropsDetection | Yolov5Tracker.SteppedProperties |
| InferenceHelper/InferenceHelperTensorflowLite.cpp:497-503 | `setBufferToTensor` binds every tensor that is not UINT8 with `sizeof(float)` bytes per element | a 1x1x1x1 INT64 input: 4 bytes are bound where the tensor needs 8 | the element size of the tensor's own type | not executed | TfliteHelper.BoundBytesShortForInt64 | TfliteHelper.BindingBytesMatchTensor |
| InferenceHelper/InferenceHelperTensorRt.cpp:279-288 | the NHWC blob branch permutes `uint8_t` elements with element indices, whatever the tensor type | a 2x2 FP32 blob whose bytes are 0 to 15: the first float of the buffer is made of bytes 0, 2, 1 and 3, and the other three floats are not written | the permutation on elements of the tensor's type, as in the image branches | not executed | TensorRtHelper.BlobBytesAsWrittenSplitsFloats | TensorRtHelper.PermuteToNchw |
| pj_tflite_style_transfer/image_processor/image_processor.cpp:169 | `s_style_bottleneck_updated` is set at start-up and by every style load, and nothing clears it, so the `|| s_style_bottleneck_updated` test is always true | Initialize, then two Process calls: both merge the frame's bottleneck, and so does every later call | merge when the style changed, then every tenth frame, with the flag cleared after the merge | not executed | StyleTransfer.MergesEveryFrame | StyleTransfer.CorrectedMergeSchedule |
| pj_tflite_lane_lanenet-lane-detection/image_processor/lane_engine.cpp:288-309 | `simultaneously_random_shuffle` takes both vectors by value, so it shuffles copies and the caller's coordinates and samples stay in their order | coordinates [(0,0), (1,0)]: whatever permutation `std::random_shuffle` picks, the caller still holds [(0,0), (1,0)] | both vectors of the caller shuffled with the same permutation, so that coordinate i and sample i stay a pair | not executed | LaneEngine.ShuffleAsWritten | LaneEngine.PermutedPairs |
| pj_tflite_det_nanodet/image_processor/detection_engine.cpp:264 | the cell's row is `i / grid_h` where the row of a row-major grid is `i / grid_w` | a 640 x 320 input at stride 32 gives a 20 x 10 grid; cell 20 is row 1, column 0, but `20 / 10` gives row 2 | `grid_y = i / grid_w` | not executed | NanoDetDetection.GridCellAsWrittenWrongRow | NanoDetDetection.GridCellRoundTrip |

// The palm detection engines around the tensor decoder and NMS: the engine
// lifecycle, the output-shape checks, the conversion of a detection into a
// rotated square palm rectangle, and the clamp of that rectangle to the image.
// Three engines share one pipeline (sort by area, error on a shape mismatch);
// the legacy PalmDetection sorts by score and aborts on a mismatch.

module PalmEngines {
  import opened Common
  import opened TensorsToDetections
  import opened PalmNms

  datatype Palm = Palm(score: real, x: real, y: real, width: real, height: real, rotation: real)

  /** The output tensor dimensions the shape check reads: rows and columns of
      the box tensor, and columns of the score tensor. */
  datatype OutputShape = OutputShape(boxRows: int, boxCols: int, scoreCols: int)

  predicate ShapesMatch(o: Options, s: OutputShape) {
    o.numBoxes == s.boxRows && o.numCoords == s.boxCols && o.numClasses == s.scoreCols
  }

  /** M_PI as a double. */
  const Pi: real := 3.141592653589793

  // ---- Rotation of the palm rectangle ----

  /** r - 2 pi floor((r + pi) / (2 pi)): the angle brought into [-pi, pi). */
  function NormalizeRadians(r: real): real {
    r - 2.0 * Pi * (((r + Pi) / (2.0 * Pi)).Floor as real)
  }

  lemma NormalizeRadiansRange(r: real)
    ensures -Pi <= NormalizeRadians(r) < Pi
  {
    var c := 2.0 * Pi;
    var t := (r + Pi) / c;
    var f := t.Floor as real;
    assert f <= t < f + 1.0;
    assert t * c == r + Pi;
    ScaleUnit(t - f, c);
    assert (t - f) * c == t * c - f * c;
  }

  lemma ScaleUnit(u: real, c: real)
    requires 0.0 <= u < 1.0 && c > 0.0
    ensures 0.0 <= u * c < c
  {
    MulLt(u, 1.0, c);
  }

  /** The angle of the wrist (keypoint 0) to middle-finger (keypoint 2) vector,
      turned so that an upright hand has rotation 0, with atan2 as a parameter. */
  function CalculateRotation(det: Detection, atan2: (real, real) -> real): (r: real)
    requires |det.keypoints| > 2
    ensures -Pi <= r < Pi
  {
    var (x0, y0) := det.keypoints[0];
    var (x1, y1) := det.keypoints[2];
    NormalizeRadiansRange(Pi * 0.5 - atan2(-(y1 - y0), x1 - x0));
    NormalizeRadians(Pi * 0.5 - atan2(-(y1 - y0), x1 - x0))
  }

  // ---- RectTransformationCalculator ----

  const ShiftX: real := 0.0
  const ShiftY: real := -0.5
  const ScaleX: real := 2.6
  const ScaleY: real := 2.6

  datatype Square = Square(x: real, y: real, width: real, height: real)

  /** The centre of the detection shifted by (ShiftX * w, ShiftY * h), the shift
      rotated by the palm's rotation when it is not 0. */
  function ShiftedCentre(det: Detection, rotation: real, cos: real -> real, sin: real -> real): (real, real) {
    var xc, yc := det.x + det.w / 2.0, det.y + det.h / 2.0;
    if rotation == 0.0 then (xc + det.w * ShiftX, yc + det.h * ShiftY)
    else
      (xc + (det.w * ShiftX * cos(rotation) - det.h * ShiftY * sin(rotation)),
       yc + (det.w * ShiftX * sin(rotation) + det.h * ShiftY * cos(rotation)))
  }

  function TransformRect(det: Detection, rotation: real, cos: real -> real, sin: real -> real): Square {
    var (xc, yc) := ShiftedCentre(det, rotation, cos, sin);
    var longSide := RMax(det.w, det.h);
    var width, height := longSide * ScaleX, longSide * ScaleY;
    Square(xc - width / 2.0, yc - height / 2.0, width, height)
  }

  /** The transformed rectangle is a square with side 2.6 times the longer side
      of the detection, centred on the shifted centre; without rotation that
      centre lies half a box height above the box centre. */
  lemma TransformRectIsSquare(det: Detection, rotation: real, cos: real -> real, sin: real -> real)
    ensures var s := TransformRect(det, rotation, cos, sin);
      var (xc, yc) := ShiftedCentre(det, rotation, cos, sin);
      && s.width == s.height == 2.6 * RMax(det.w, det.h)
      && s.x + s.width / 2.0 == xc && s.y + s.height / 2.0 == yc
      && (rotation == 0.0 ==> xc == det.x + det.w / 2.0 && yc == det.y)
  {
  }

  // ---- Clamping to the image ----

  /** The palm as the engines store it: x and y clamped into [0, W] and
      [0, H], the size clamped at 0 and to what is left of the image. */
  function ClampPalm(score: real, s: Square, rotation: real, imageWidth: real, imageHeight: real): (p: Palm)
    ensures imageWidth >= 0.0 ==> 0.0 <= p.x <= imageWidth && 0.0 <= p.width && p.x + p.width <= imageWidth
    ensures imageHeight >= 0.0 ==> 0.0 <= p.y <= imageHeight && 0.0 <= p.height && p.y + p.height <= imageHeight
    ensures 0.0 <= s.x && 0.0 <= s.width && s.x + s.width <= imageWidth ==> p.x == s.x && p.width == s.width
    ensures 0.0 <= s.y && 0.0 <= s.height && s.y + s.height <= imageHeight ==> p.y == s.y && p.height == s.height
    ensures p.score == score && p.rotation == rotation
  {
    var x := RMin(imageWidth, RMax(s.x, 0.0));
    var y := RMin(imageHeight, RMax(s.y, 0.0));
    Palm(score, x, y, RMin(imageWidth - x, RMax(s.width, 0.0)), RMin(imageHeight - y, RMax(s.height, 0.0)), rotation)
  }

  // ---- From a detection to a palm ----

  /** The scaling to image pixels as written: the keypoint loop iterates over
      copies, so the keypoints keep their normalised coordinates. */
  function ScaleAsWritten(det: Detection, imageWidth: real, imageHeight: real): (d: Detection)
    ensures d.keypoints == det.keypoints
  {
    det.(x := det.x * imageWidth, y := det.y * imageHeight, w := det.w * imageWidth, h := det.h * imageHeight)
  }

  function ScalePoint(p: (real, real), imageWidth: real, imageHeight: real): (real, real) {
    (p.0 * imageWidth, p.1 * imageHeight)
  }

  /** The scaling with the keypoints scaled as well. */
  function Scale(det: Detection, imageWidth: real, imageHeight: real): (d: Detection)
    ensures |d.keypoints| == |det.keypoints|
    ensures forall k :: 0 <= k < |d.keypoints| ==> d.keypoints[k] == ScalePoint(det.keypoints[k], imageWidth, imageHeight)
  {
    var kps := seq(|det.keypoints|, k requires 0 <= k < |det.keypoints| =>
      ScalePoint(det.keypoints[k], imageWidth, imageHeight));
    det.(x := det.x * imageWidth, y := det.y * imageHeight, w := det.w * imageWidth, h := det.h * imageHeight,
         keypoints := kps)
  }

  /** The vector whose angle gives the rotation: keypoint 0 to keypoint 2, y flipped. */
  function RotationVector(det: Detection): (real, real)
    requires |det.keypoints| > 2
  {
    (-(det.keypoints[2].1 - det.keypoints[0].1), det.keypoints[2].0 - det.keypoints[0].0)
  }

  function TiltedPalm(): Detection {
    Detection(1.0, 0, 0.0, 0.0, 0.5, 0.5, [(0.0, 0.0), (0.0, 0.0), (0.5, 0.5)])
  }

  /** On a 200 x 100 image a keypoint pair at 45 degrees in normalised
      coordinates lies at about 27 degrees in pixels; as written, atan2 sees the
      normalised vector (-0.5, 0.5) instead of the pixel vector (-50, 100). */
  lemma RotationUsesUnscaledKeypoints()
    ensures RotationVector(ScaleAsWritten(TiltedPalm(), 200.0, 100.0)) == (-0.5, 0.5)
    ensures RotationVector(Scale(TiltedPalm(), 200.0, 100.0)) == (-50.0, 100.0)
  {
  }

  /** With the keypoints scaled, the rotation vector is the normalised one
      stretched by the image size on each axis. */
  lemma ScaledRotationVector(det: Detection, imageWidth: real, imageHeight: real)
    requires |det.keypoints| > 2
    ensures RotationVector(Scale(det, imageWidth, imageHeight)).0 == RotationVector(det).0 * imageHeight
    ensures RotationVector(Scale(det, imageWidth, imageHeight)).1 == RotationVector(det).1 * imageWidth
  {
    var k0, k2 := det.keypoints[0], det.keypoints[2];
    var d := Scale(det, imageWidth, imageHeight);
    assert d.keypoints[0] == ScalePoint(k0, imageWidth, imageHeight);
    assert d.keypoints[2] == ScalePoint(k2, imageWidth, imageHeight);
    var vy := -(d.keypoints[2].1 - d.keypoints[0].1);
    var vx := d.keypoints[2].0 - d.keypoints[0].0;
    assert vy == -(k2.1 * imageHeight - k0.1 * imageHeight);
    assert vx == k2.0 * imageWidth - k0.0 * imageWidth;
    Distribute(k2.1, k0.1, imageHeight);
    Distribute(k2.0, k0.0, imageWidth);
    assert RotationVector(d) == (vy, vx);
    assert RotationVector(det) == (-(k2.1 - k0.1), k2.0 - k0.0);
  }

  lemma Distribute(a: real, b: real, c: real)
    ensures a * c - b * c == (a - b) * c
    ensures -(a * c - b * c) == (-(a - b)) * c
  {
  }

  /** One palm of the engines, as written: the box is scaled to pixels, the
      keypoints stay normalised. */
  function PalmOf(det: Detection, imageWidth: real, imageHeight: real,
                  atan2: (real, real) -> real, cos: real -> real, sin: real -> real): Palm
    requires |det.keypoints| > 2
  {
    var d := ScaleAsWritten(det, imageWidth, imageHeight);
    var rotation := CalculateRotation(d, atan2);
    ClampPalm(det.score, TransformRect(d, rotation, cos, sin), rotation, imageWidth, imageHeight)
  }

  /** One palm of the legacy engine as written: the PALM declared in the loop
      shadows the detection, so its score is assigned from itself and is
      indeterminate; the model takes that value as a parameter. */
  function LegacyPalmAsWritten(det: Detection, imageWidth: real, imageHeight: real,
                               atan2: (real, real) -> real, cos: real -> real, sin: real -> real,
                               indeterminate: real): Palm
    requires |det.keypoints| > 2
  {
    PalmOf(det, imageWidth, imageHeight, atan2, cos, sin).(score := indeterminate)
  }

  lemma LegacyPalmScoreLost(atan2: (real, real) -> real, cos: real -> real, sin: real -> real)
    ensures LegacyPalmAsWritten(TiltedPalm(), 1.0, 1.0, atan2, cos, sin, 0.0).score != TiltedPalm().score
    ensures PalmOf(TiltedPalm(), 1.0, 1.0, atan2, cos, sin).score == TiltedPalm().score
  {
  }

  /** Every palm lies inside the image, carries its detection's score and a
      rotation in [-pi, pi); a square that fits the image is kept as it is. */
  lemma PalmInImage(det: Detection, imageWidth: real, imageHeight: real,
                    atan2: (real, real) -> real, cos: real -> real, sin: real -> real)
    requires |det.keypoints| > 2 && imageWidth >= 0.0 && imageHeight >= 0.0
    ensures var p := PalmOf(det, imageWidth, imageHeight, atan2, cos, sin);
      && 0.0 <= p.x && 0.0 <= p.width && p.x + p.width <= imageWidth
      && 0.0 <= p.y && 0.0 <= p.height && p.y + p.height <= imageHeight
      && p.score == det.score && -Pi <= p.rotation < Pi
  {
  }

  predicate HasRotationKeypoints(dets: seq<Detection>) {
    forall i :: 0 <= i < |dets| ==> |dets[i].keypoints| > 2
  }

  /** The palm loop of Process. */
  method MakePalms(dets: seq<Detection>, imageWidth: real, imageHeight: real,
                   atan2: (real, real) -> real, cos: real -> real, sin: real -> real)
    returns (palms: seq<Palm>)
    requires HasRotationKeypoints(dets)
    ensures |palms| == |dets|
    ensures forall i :: 0 <= i < |dets| ==> palms[i] == PalmOf(dets[i], imageWidth, imageHeight, atan2, cos, sin)
  {
    palms := [];
    var i := 0;
    while i < |dets|
      invariant 0 <= i <= |dets| && |palms| == i
      invariant forall j :: 0 <= j < i ==> palms[j] == PalmOf(dets[j], imageWidth, imageHeight, atan2, cos, sin)
    {
      var d := ScaleAsWritten(dets[i], imageWidth, imageHeight);
      var rotation := CalculateRotation(d, atan2);
      var s := TransformRect(d, rotation, cos, sin);
      palms := palms + [ClampPalm(dets[i].score, s, rotation, imageWidth, imageHeight)];
      i := i + 1;
    }
  }

  // ---- The engine ----

  datatype Outcome = Palms(palms: seq<Palm>) | Error | Aborted

  /** How an engine variant differs: the NMS sort key, whether a shape
      mismatch aborts (CHECK) rather than returning an error, and whether the
      statuses of the helper's initialize and invoke are checked at all. */
  datatype Variant = Variant(key: SortKey, abortOnMismatch: bool, checksStatus: bool)

  /** hand_mediapipe's PalmDetectionEngine and both arprobe engines. */
  const AreaSortedEngine := Variant(ByArea, false, true)
  /** The legacy hand_mediapipe PalmDetection: it returns 0 from initialize and
      invoke whatever the helper reports. */
  const LegacyEngine := Variant(ByScore, true, false)

  /** The palms of a detection list after NMS on one admissible sorted order. */
  ghost predicate PalmsAfterNms(v: Variant, dets: seq<Detection>, palms: seq<Palm>, imageWidth: real, imageHeight: real,
                                atan2: (real, real) -> real, cos: real -> real, sin: real -> real)
  {
    exists sorted: seq<Detection> {:trigger Descending(v.key, sorted)} ::
      && Descending(v.key, sorted) && multiset(sorted) == multiset(dets)
      && HasRotationKeypoints(NmsOutput(sorted, IoUAsWritten, false, |sorted|))
      && palms == seq(|NmsOutput(sorted, IoUAsWritten, false, |sorted|)|, i requires 0 <= i < |NmsOutput(sorted, IoUAsWritten, false, |sorted|)| =>
           PalmOf(NmsOutput(sorted, IoUAsWritten, false, |sorted|)[i], imageWidth, imageHeight, atan2, cos, sin))
  }

  lemma DetectionsHaveKeypoints(o: Options, boxes: seq<real>, scores: seq<real>, classes: seq<int>)
    requires LayoutOk(o) && BufferShapes(o, boxes, scores, classes)
    ensures forall e :: e in Converted(o, boxes, scores, classes, o.numBoxes) ==> |e.keypoints| == o.numKeypoints
  {
    ConvertedArePassing(o, boxes, scores, classes, o.numBoxes);
  }

  lemma NmsKeepsKeypoints(sorted: seq<Detection>, dets: seq<Detection>, n: int)
    requires multiset(sorted) == multiset(dets)
    requires forall e :: e in dets ==> |e.keypoints| == n
    ensures forall i :: 0 <= i < |NmsOutput(sorted, IoUAsWritten, false, |sorted|)| ==>
      |NmsOutput(sorted, IoUAsWritten, false, |sorted|)[i].keypoints| == n
  {
    UnweightedOutputIsAnchors(sorted, IoUAsWritten, |sorted|);
    forall i | 0 <= i < |NmsOutput(sorted, IoUAsWritten, false, |sorted|)|
      ensures |NmsOutput(sorted, IoUAsWritten, false, |sorted|)[i].keypoints| == n
    {
      var e := NmsOutput(sorted, IoUAsWritten, false, |sorted|)[i];
      assert e in multiset(sorted);
    }
  }

  class PalmDetectionEngine {
    /** Whether the inference helper exists (created and initialised). */
    var helperReady: bool
    var anchors: seq<Anchor>
    const variant: Variant

    constructor (v: Variant)
      ensures !helperReady && anchors == [] && variant == v
    {
      helperReady := false;
      anchors := [];
      variant := v;
    }

    /** Initialize: each failing step (create, thread count, custom ops,
        helper initialisation, and in the arprobe engines the input-tensor
        check) leaves no helper and returns an error; on success the anchors
        are generated.  The legacy engine ignores every status: it keeps the
        helper it created, generates the anchors and succeeds. */
    method Initialize(created: bool, threadsOk: bool, customOpsOk: bool, helperOk: bool,
                      checkInputs: bool, inputs: seq<InputTensorShape>, generated: seq<Anchor>)
      returns (ok: bool)
      modifies this
      ensures ok == (!variant.checksStatus ||
        (created && threadsOk && customOpsOk && helperOk && (checkInputs ==> AllInputsValid(inputs))))
      ensures helperReady == ok
      ensures ok ==> anchors == generated
      ensures !ok ==> anchors == old(anchors)
    {
      if !variant.checksStatus {
        helperReady := true;
        anchors := generated;
        return true;
      }
      if !created || !threadsOk || !customOpsOk || !helperOk {
        helperReady := false;
        return false;
      }
      if checkInputs {
        var valid := CheckInputTensors(inputs);
        if !valid {
          helperReady := false;
          return false;
        }
      }
      helperReady := true;
      anchors := generated;
      ok := true;
    }

    /** Finalize requires a helper; it does not release it. */
    method Finalize() returns (ok: bool)
      ensures ok == helperReady
    {
      ok := helperReady;
    }

    /** Process: no helper, a failed inference or mismatched output shapes give
        an error (an abort in the legacy engine, which does not look at the
        inference status); otherwise the detections are decoded, suppressed and
        turned into palms. */
    method Process(o: Options, shape: OutputShape, inferenceOk: bool, raw: seq<real>, rawScores: seq<real>,
                   imageWidth: real, imageHeight: real, exp: real -> real, sigmoid: real -> real,
                   atan2: (real, real) -> real, cos: real -> real, sin: real -> real)
      returns (r: Outcome)
      requires LayoutOk(o) && o.numKeypoints > 2
      requires ShapesMatch(o, shape) ==> |raw| >= o.numBoxes * o.numCoords && |rawScores| >= o.numBoxes * o.numClasses
      ensures !helperReady || (variant.checksStatus && !inferenceOk) ==> r == Error
      ensures helperReady && (inferenceOk || !variant.checksStatus) && !ShapesMatch(o, shape) ==>
        r == (if variant.abortOnMismatch then Aborted else Error)
      ensures helperReady && (inferenceOk || !variant.checksStatus) && ShapesMatch(o, shape) ==>
        (r.Palms? && PalmsAfterNms(variant, ProcessResult(o, raw, rawScores, anchors, exp, sigmoid), r.palms,
                                   imageWidth, imageHeight, atan2, cos, sin))
    {
      if !helperReady || (variant.checksStatus && !inferenceOk) {
        return Error;
      }
      if !ShapesMatch(o, shape) {
        return if variant.abortOnMismatch then Aborted else Error;
      }
      var dets := TensorsToDetections.Process(o, raw, rawScores, anchors, exp, sigmoid);
      var arr := new Detection[|dets|](i requires 0 <= i < |dets| => dets[i]);
      assert arr[..] == dets;
      var kept := Nms(arr, IoUAsWritten, false, variant.key);
      ghost var sorted := arr[..];
      DetectionsHaveKeypoints(o, BoxesAfterDecode(o, raw, anchors, exp), BestScores(o, sigmoid, rawScores),
                              BestClasses(o, sigmoid, rawScores));
      NmsKeepsKeypoints(sorted, dets, o.numKeypoints);
      var palms := MakePalms(kept, imageWidth, imageHeight, atan2, cos, sin);
      assert Descending(variant.key, sorted);
      r := Palms(palms);
    }
  }

  // ---- Input tensor check of the arprobe engines ----

  datatype TensorType = TypeNone | TypeUint8 | TypeInt8 | TypeFp32 | TypeInt32 | TypeInt64

  datatype InputTensorShape = InputTensorShape(width: int, height: int, tensorType: TensorType)

  predicate AllInputsValid(inputs: seq<InputTensorShape>) {
    forall i :: 0 <= i < |inputs| ==>
      inputs[i].width > 0 && inputs[i].height > 0 && inputs[i].tensorType != TypeNone
  }

  /** The loop that rejects an input tensor whose width or height is not
      positive or whose type is unset. */
  method CheckInputTensors(inputs: seq<InputTensorShape>) returns (ok: bool)
    ensures ok <==> AllInputsValid(inputs)
  {
    var i := 0;
    while i < |inputs|
      invariant 0 <= i <= |inputs|
      invariant AllInputsValid(inputs[..i])
    {
      var t := inputs[i];
      if t.width <= 0 || t.height <= 0 || t.tensorType == TypeNone {
        return false;
      }
      i := i + 1;
    }
    assert inputs[..i] == inputs;
    ok := true;
  }
}

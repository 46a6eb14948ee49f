// Post-processing of the DBFace face detection engine: a centred crop with the
// tensor's aspect ratio, a scan of the heatmap that keeps every cell at or above
// the threshold, five keypoints read back for each face NMS keeps, and the
// adjustment of the faces to the original image.

module DBFaceDetection {
  import opened Common
  import opened Detections
  import opened CropResize

  const KeypointNum: nat := 5

  /** IS_NCHW of the shipped model (dbface_mbnv2_480x640.tflite). */
  const IsNchw: bool := false

  /** The crop `Process` computes inline: the image's aspect ratio against the tensor's,
      the free side truncated and centred with C division. */
  function ProcessCrop(cols: int, rows: int, width: int, height: int): Crop
    requires cols > 0 && rows > 0 && width > 0 && height > 0
  {
    var at := Aspect(width, height);
    if Aspect(cols, rows) > at then
      var w := Trunc(at * rows as real);
      Crop(CDiv(cols - w, 2), 0, w, rows)
    else
      var h := Trunc(cols as real / at);
      Crop(0, CDiv(rows - h, 2), cols, h)
  }

  /** The inline crop is the common centre crop (Cut mode from the whole image), so it
      lies inside the image and keeps one whole side. */
  lemma ProcessCropIsCentreCrop(cols: int, rows: int, width: int, height: int)
    requires cols > 0 && rows > 0 && width > 0 && height > 0
    ensures ProcessCrop(cols, rows, width, height) == CentreCrop(cols, rows, width, height)
    ensures InImage(ProcessCrop(cols, rows, width, height), cols, rows)
  {
    CentreCropAspect(cols, rows, width, height);
    var at := Aspect(width, height);
    assert at * rows as real == rows as real * at;
  }

  // ---- The heatmap scan ----

  /** What the three tensors must hold for a heatmap of `hmSize` cells. */
  predicate TensorsFit(hm: seq<real>, reg: seq<real>, key: seq<real>, hmSize: int) {
    0 <= hmSize <= |hm| && 4 * hmSize <= |reg| && 10 * hmSize <= |key|
  }

  /** Component `k` of the regressor of cell `index`: channel-major in NCHW, four
      values per cell in NHWC. */
  function RegAt(reg: seq<real>, nchw: bool, hmSize: int, index: int, k: int): real
    requires 0 <= index < hmSize && 4 * hmSize <= |reg| && 0 <= k < 4
  {
    if nchw then reg[index + k * hmSize] else reg[index * 4 + k]
  }

  /** The box of heatmap cell `index` = hm_y * hm_w + hm_x: the regressor gives the
      distances to the left and top edges and the width and height beyond them, in
      heatmap cells; class_id keeps the cell index until after NMS. */
  function CellBox(hm: seq<real>, reg: seq<real>, nchw: bool, hmW: int, hmSize: int, index: int,
                   scaleW: real, scaleH: real): BoundingBox
    requires hmW > 0 && 0 <= index < hmSize && hmSize <= |hm| && 4 * hmSize <= |reg|
  {
    var hmX := index % hmW;
    var hmY := index / hmW;
    var x := RegAt(reg, nchw, hmSize, index, 0);
    var y := RegAt(reg, nchw, hmSize, index, 1);
    var w := RegAt(reg, nchw, hmSize, index, 2);
    var h := RegAt(reg, nchw, hmSize, index, 3);
    BoundingBox(index, "", hm[index], Trunc((hmX as real - x) * scaleW), Trunc((hmY as real - y) * scaleH),
      Trunc((x + w) * scaleW), Trunc((y + h) * scaleH))
  }

  /** The boxes of cells 0 .. n-1 whose heatmap score reaches the threshold. */
  function HeatmapBoxes(hm: seq<real>, reg: seq<real>, nchw: bool, hmW: int, hmSize: int, threshold: real,
                        scaleW: real, scaleH: real, n: int): (boxes: seq<BoundingBox>)
    requires hmW > 0 && 0 <= n <= hmSize && hmSize <= |hm| && 4 * hmSize <= |reg|
    ensures |boxes| <= n
    ensures forall b :: b in boxes ==> 0 <= b.classId < n && b.score >= threshold && b.score == hm[b.classId]
  {
    if n == 0 then []
    else
      var prev := HeatmapBoxes(hm, reg, nchw, hmW, hmSize, threshold, scaleW, scaleH, n - 1);
      if hm[n - 1] >= threshold then prev + [CellBox(hm, reg, nchw, hmW, hmSize, n - 1, scaleW, scaleH)] else prev
  }

  /** The boxes come out in cell order, one cell at most once. */
  lemma {:induction false} HeatmapBoxesOrder(hm: seq<real>, reg: seq<real>, nchw: bool, hmW: int, hmSize: int,
                                             threshold: real, scaleW: real, scaleH: real, n: int)
    requires hmW > 0 && 0 <= n <= hmSize && hmSize <= |hm| && 4 * hmSize <= |reg|
    ensures Increasing(HeatmapBoxes(hm, reg, nchw, hmW, hmSize, threshold, scaleW, scaleH, n))
  {
    if n > 0 {
      HeatmapBoxesOrder(hm, reg, nchw, hmW, hmSize, threshold, scaleW, scaleH, n - 1);
    }
  }

  /** A cell yields a box exactly when its score reaches the threshold. */
  lemma {:induction false} HeatmapBoxesComplete(hm: seq<real>, reg: seq<real>, nchw: bool, hmW: int, hmSize: int,
                                                threshold: real, scaleW: real, scaleH: real, n: int, i: int)
    requires hmW > 0 && 0 <= n <= hmSize && hmSize <= |hm| && 4 * hmSize <= |reg| && 0 <= i < n
    ensures HasAnchor(HeatmapBoxes(hm, reg, nchw, hmW, hmSize, threshold, scaleW, scaleH, n), i) <==> hm[i] >= threshold
  {
    var prev := HeatmapBoxes(hm, reg, nchw, hmW, hmSize, threshold, scaleW, scaleH, n - 1);
    var boxes := HeatmapBoxes(hm, reg, nchw, hmW, hmSize, threshold, scaleW, scaleH, n);
    if i < n - 1 {
      HeatmapBoxesComplete(hm, reg, nchw, hmW, hmSize, threshold, scaleW, scaleH, n - 1, i);
      if HasAnchor(boxes, i) {
        var j :| 0 <= j < |boxes| && boxes[j].classId == i;
        assert boxes[j] == prev[j];
      }
      if HasAnchor(prev, i) {
        var j :| 0 <= j < |prev| && prev[j].classId == i;
        assert boxes[j] == prev[j];
      }
    } else if hm[i] >= threshold {
      assert boxes[|prev|].classId == i;
    } else {
      assert !HasAnchor(boxes, i);
    }
  }

  /** The scan of `Process`: rows of the heatmap, then cells within a row. */
  method DecodeHeatmap(hm: seq<real>, reg: seq<real>, nchw: bool, hmW: int, hmH: int, threshold: real,
                       scaleW: real, scaleH: real) returns (boxes: seq<BoundingBox>)
    requires hmW > 0 && hmH > 0 && hmW * hmH <= |hm| && 4 * (hmW * hmH) <= |reg|
    ensures boxes == HeatmapBoxes(hm, reg, nchw, hmW, hmW * hmH, threshold, scaleW, scaleH, hmW * hmH)
  {
    var hmSize := hmW * hmH;
    MulComm(hmW, hmH);
    boxes := [];
    for hmY := 0 to hmH
      invariant boxes == HeatmapBoxes(hm, reg, nchw, hmW, hmSize, threshold, scaleW, scaleH, hmY * hmW)
    {
      NextRow(hmY, hmW, hmH);
      boxes := VisitRow(hm, reg, nchw, hmW, hmSize, threshold, scaleW, scaleH, boxes, hmY * hmW);
    }
  }

  lemma MulComm(a: int, b: int)
    ensures a * b == b * a
  {
  }

  /** Row hmY starts at cell hmY * hmW and the next row at its end, inside the heatmap. */
  lemma NextRow(hmY: int, hmW: int, hmH: int)
    requires 0 <= hmY < hmH && 0 < hmW
    ensures 0 <= hmY * hmW && hmY * hmW + hmW == (hmY + 1) * hmW <= hmH * hmW
  {
    MulMono(hmY + 1, hmH, hmW);
    MulNonNeg(hmY, hmW);
  }

  /** The cells of the row starting at cell `start`, left to right. */
  method VisitRow(hm: seq<real>, reg: seq<real>, nchw: bool, hmW: int, hmSize: int, threshold: real,
                  scaleW: real, scaleH: real, boxes: seq<BoundingBox>, start: int) returns (out: seq<BoundingBox>)
    requires hmW > 0 && 0 <= start && start + hmW <= hmSize && hmSize <= |hm| && 4 * hmSize <= |reg|
    requires boxes == HeatmapBoxes(hm, reg, nchw, hmW, hmSize, threshold, scaleW, scaleH, start)
    ensures out == HeatmapBoxes(hm, reg, nchw, hmW, hmSize, threshold, scaleW, scaleH, start + hmW)
  {
    out := boxes;
    for hmX := 0 to hmW
      invariant out == HeatmapBoxes(hm, reg, nchw, hmW, hmSize, threshold, scaleW, scaleH, start + hmX)
    {
      out := VisitCell(hm, reg, nchw, hmW, hmSize, threshold, scaleW, scaleH, out, start + hmX);
    }
  }

  /** The body of the scan for one cell: its box is appended when its score reaches
      the threshold. */
  method VisitCell(hm: seq<real>, reg: seq<real>, nchw: bool, hmW: int, hmSize: int, threshold: real,
                   scaleW: real, scaleH: real, boxes: seq<BoundingBox>, index: int) returns (out: seq<BoundingBox>)
    requires hmW > 0 && 0 <= index < hmSize && hmSize <= |hm| && 4 * hmSize <= |reg|
    requires boxes == HeatmapBoxes(hm, reg, nchw, hmW, hmSize, threshold, scaleW, scaleH, index)
    ensures out == HeatmapBoxes(hm, reg, nchw, hmW, hmSize, threshold, scaleW, scaleH, index + 1)
  {
    out := boxes;
    var score := hm[index];
    if score >= threshold {
      out := out + [CellBox(hm, reg, nchw, hmW, hmSize, index, scaleW, scaleH)];
    }
  }

  // ---- Keypoints ----

  /** `ExpSpecial`, with `exp` standing for `std::expf`: linear through the origin
      below the gate of 1, the exponential beyond it, mirrored for negative inputs. */
  function ExpSpecial(x: real, exp: real -> real): real {
    if RAbs(x) < 1.0 then x * exp(1.0)
    else if x > 0.0 then exp(x)
    else -exp(-x)
  }

  /** The function is odd whatever the exponential, and with a positive exponential it
      keeps the sign of its input. */
  lemma ExpSpecialOdd(x: real, exp: real -> real)
    ensures ExpSpecial(-x, exp) == -ExpSpecial(x, exp)
    ensures exp(1.0) > 0.0 && exp(RAbs(x)) > 0.0 ==>
      (x > 0.0 ==> ExpSpecial(x, exp) > 0.0) && (x < 0.0 ==> ExpSpecial(x, exp) < 0.0) &&
      (x == 0.0 ==> ExpSpecial(x, exp) == 0.0)
  {
  }

  /** The raw keypoint component `k` (0 .. 9: five x values, then five y values) of
      cell `index`, times the heatmap stride 4. */
  function KeyAt(key: seq<real>, nchw: bool, hmSize: int, index: int, k: int): real
    requires 0 <= index < hmSize && 10 * hmSize <= |key| && 0 <= k < 10
  {
    (if nchw then key[index + k * hmSize] else key[index * 10 + k]) * 4.0
  }

  type Keypoint = (int, int)

  /** Keypoint `k` of the face kept from cell `index`. */
  function KeypointOf(key: seq<real>, nchw: bool, hmW: int, hmSize: int, index: int, k: int,
                      crop: Crop, scaleW: real, scaleH: real, exp: real -> real): Keypoint
    requires hmW > 0 && 0 <= index < hmSize && 10 * hmSize <= |key| && 0 <= k < KeypointNum
  {
    var x := (ExpSpecial(KeyAt(key, nchw, hmSize, index, k), exp) + (index % hmW) as real) * scaleW;
    var y := (ExpSpecial(KeyAt(key, nchw, hmSize, index, 5 + k), exp) + (index / hmW) as real) * scaleH;
    (Trunc(x + crop.x as real), Trunc(y + crop.y as real))
  }

  /** A kept box still names a heatmap cell whose score reached the threshold. */
  lemma KeptNamesCell(hm: seq<real>, reg: seq<real>, nchw: bool, hmW: int, hmSize: int, threshold: real,
                      scaleW: real, scaleH: real, kept: seq<BoundingBox>)
    requires hmW > 0 && 0 <= hmSize <= |hm| && 4 * hmSize <= |reg|
    requires SelectedFrom(kept, HeatmapBoxes(hm, reg, nchw, hmW, hmSize, threshold, scaleW, scaleH, hmSize))
    ensures forall b :: b in kept ==> 0 <= b.classId < hmSize && hm[b.classId] >= threshold
  {
  }

  /** The keypoint loop over the NMS output: five keypoints per face, in order. */
  method GetKeypoints(kept: seq<BoundingBox>, key: seq<real>, nchw: bool, hmW: int, hmSize: int,
                      crop: Crop, scaleW: real, scaleH: real, exp: real -> real)
    returns (keypoints: seq<seq<Keypoint>>)
    requires hmW > 0 && 10 * hmSize <= |key|
    requires forall b :: b in kept ==> 0 <= b.classId < hmSize
    ensures |keypoints| == |kept|
    ensures forall i :: 0 <= i < |kept| ==>
      |keypoints[i]| == KeypointNum &&
      forall k :: 0 <= k < KeypointNum ==>
        keypoints[i][k] == KeypointOf(key, nchw, hmW, hmSize, kept[i].classId, k, crop, scaleW, scaleH, exp)
  {
    keypoints := [];
    for i := 0 to |kept|
      invariant |keypoints| == i
      invariant forall j :: 0 <= j < i ==>
        |keypoints[j]| == KeypointNum &&
        forall k :: 0 <= k < KeypointNum ==>
          keypoints[j][k] == KeypointOf(key, nchw, hmW, hmSize, kept[j].classId, k, crop, scaleW, scaleH, exp)
    {
      var anchorIndex := kept[i].classId;
      var keypoint := [];
      for k := 0 to KeypointNum
        invariant |keypoint| == k
        invariant forall m :: 0 <= m < k ==>
          keypoint[m] == KeypointOf(key, nchw, hmW, hmSize, anchorIndex, m, crop, scaleW, scaleH, exp)
      {
        keypoint := keypoint + [KeypointOf(key, nchw, hmW, hmSize, anchorIndex, k, crop, scaleW, scaleH, exp)];
      }
      keypoints := keypoints + [keypoint];
    }
  }

  /** The adjusted face: class 0, label "FACE", score unchanged, the rectangle moved by
      the crop origin and fitted to the screen by `fixInScreen`. */
  function FaceBox(b: BoundingBox, crop: Crop, fixInScreen: Rect -> Rect): (r: BoundingBox)
    ensures r.classId == 0 && r.labelName == "FACE" && r.score == b.score
    ensures (r.x, r.y, r.w, r.h) == fixInScreen((b.x + crop.x, b.y + crop.y, b.w, b.h))
  {
    var (x, y, w, h) := fixInScreen((b.x + crop.x, b.y + crop.y, b.w, b.h));
    BoundingBox(0, "FACE", b.score, x, y, w, h)
  }

  /** The adjust loop, run after the keypoints have been read. */
  method AdjustFaces(kept: seq<BoundingBox>, crop: Crop, fixInScreen: Rect -> Rect) returns (faces: seq<BoundingBox>)
    ensures |faces| == |kept|
    ensures forall i :: 0 <= i < |kept| ==> faces[i] == FaceBox(kept[i], crop, fixInScreen)
  {
    faces := kept;
    for i := 0 to |kept|
      invariant |faces| == |kept|
      invariant forall k :: 0 <= k < i ==> faces[k] == FaceBox(kept[k], crop, fixInScreen)
      invariant forall k :: i <= k < |kept| ==> faces[k] == kept[k]
    {
      faces := faces[i := FaceBox(faces[i], crop, fixInScreen)];
    }
  }

  /** The post-processing of `Process` up to NMS: the crop (reported unchanged as the
      result crop) and the candidate of every cell at or above the threshold, scaled by
      crop size over heatmap size. */
  method PostProcess(hm: seq<real>, reg: seq<real>, hmW: int, hmH: int, cols: int, rows: int,
                     width: int, height: int, threshold: real)
    returns (crop: Crop, boxes: seq<BoundingBox>)
    requires cols > 0 && rows > 0 && width > 0 && height > 0
    requires hmW > 0 && hmH > 0 && hmW * hmH <= |hm| && 4 * (hmW * hmH) <= |reg|
    ensures crop == CentreCrop(cols, rows, width, height)
    ensures boxes == HeatmapBoxes(hm, reg, IsNchw, hmW, hmW * hmH, threshold,
      crop.w as real / hmW as real, crop.h as real / hmH as real, hmW * hmH)
    ensures forall i :: 0 <= i < hmW * hmH ==> (HasAnchor(boxes, i) <==> hm[i] >= threshold)
  {
    crop := ProcessCrop(cols, rows, width, height);
    ProcessCropIsCentreCrop(cols, rows, width, height);
    var hmSize := hmW * hmH;
    var scaleW := crop.w as real / hmW as real;
    var scaleH := crop.h as real / hmH as real;
    boxes := DecodeHeatmap(hm, reg, IsNchw, hmW, hmH, threshold, scaleW, scaleH);
    forall i | 0 <= i < hmSize
      ensures HasAnchor(boxes, i) <==> hm[i] >= threshold
    {
      HeatmapBoxesComplete(hm, reg, IsNchw, hmW, hmSize, threshold, scaleW, scaleH, hmSize, i);
    }
  }
}

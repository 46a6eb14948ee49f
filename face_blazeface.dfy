// Post-processing of the BlazeFace face detection engine: the anchor grid, the
// anchor-by-anchor box decoder gated by the logit of the threshold, and the
// adjustment after NMS that turns the anchor index kept in each box into six
// keypoints.

module BlazeFaceDetection {
  import opened Common
  import opened Detections
  import opened CropResize

  /** kElementNumOfAnchor: x, y, w, h and six keypoints (x, y). */
  const ElementNumOfAnchor: nat := 16
  const KeypointNum: nat := 6

  /** kAnchorGridSize and kAnchorNum: a 16x16 grid with 2 anchors per cell, then an
      8x8 grid with 6 anchors per cell. */
  const GridCols: seq<int> := [16, 8]
  const GridRows: seq<int> := [16, 8]
  const AnchorNum: seq<int> := [2, 6]

  type Anchor = (real, real)

  // ---- Logit ----

  /** `Logit`, with `log` standing for `std::logf`. */
  function Logit(x: real, log: real -> real): real {
    if x == 0.0 then -FltMax
    else if x == 1.0 then FltMax
    else log(x / (1.0 - x))
  }

  /** The two ends of the threshold range map to the extreme floats, whatever the
      logarithm; in between the logarithm of the odds is taken. */
  lemma LogitEnds(log: real -> real, x: real)
    ensures Logit(0.0, log) == -FltMax && Logit(1.0, log) == FltMax
    ensures x != 0.0 && x != 1.0 ==> Logit(x, log) == log(x / (1.0 - x))
  {
  }

  /** `Sigmoid`, with `exp` standing for `std::expf`: the two branches are the same
      value written two ways so that the exponent never grows. */
  function Sigmoid(x: real, exp: real -> real): real
    requires forall y :: exp(y) > 0.0
  {
    if x >= 0.0 then 1.0 / (1.0 + exp(-x)) else exp(x) / (1.0 + exp(x))
  }

  /** For an exponential with exp(x) * exp(-x) == 1, both branches equal the
      logistic 1 / (1 + exp(-x)), which lies strictly between 0 and 1. */
  lemma SigmoidMeaning(x: real, exp: real -> real)
    requires forall y :: exp(y) > 0.0
    requires exp(x) * exp(-x) == 1.0
    ensures Sigmoid(x, exp) == 1.0 / (1.0 + exp(-x))
    ensures 0.0 < Sigmoid(x, exp) < 1.0
  {
    var e := exp(x);
    var f := exp(-x);
    assert e > 0.0 && f > 0.0;
    if x < 0.0 {
      assert e * f == 1.0;
      assert (1.0 + e) * f == f + 1.0;
      assert e / (1.0 + e) == (e * f) / ((1.0 + e) * f);
    }
  }

  // ---- CreateAnchor ----

  /** The number of anchors of layer `i`. */
  function LayerSize(i: int): nat
    requires 0 <= i < |GridCols|
  {
    MulNonNeg(GridCols[i], GridRows[i]);
    MulNonNeg(GridCols[i] * GridRows[i], AnchorNum[i]);
    GridCols[i] * GridRows[i] * AnchorNum[i]
  }

  /** The index of the first anchor of layer `i`. */
  function LayerStart(i: int): nat
    requires 0 <= i <= |GridCols|
  {
    if i == 0 then 0 else LayerStart(i - 1) + LayerSize(i - 1)
  }

  /** 16 * 16 * 2 + 8 * 8 * 6 = 896 anchors in all. */
  lemma AnchorCount()
    ensures LayerStart(1) == 512 && LayerStart(|GridCols|) == 896
  {
  }

  /** The centre of cell `g` of a grid of `cells` over `size` pixels: stride * (g + 0.5). */
  function CellCentre(size: int, cells: int, g: int): real
    requires cells > 0
  {
    (size as real / cells as real) * (g as real + 0.5)
  }

  /** Anchor `k` of layer `i`: its cell is k / anchor_num, taken row by row. */
  function LayerAnchor(width: int, height: int, i: int, k: int): Anchor
    requires 0 <= i < |GridCols| && 0 <= k
  {
    var cell := k / AnchorNum[i];
    (CellCentre(width, GridCols[i], cell % GridCols[i]), CellCentre(height, GridRows[i], cell / GridCols[i]))
  }

  /** Anchor number `k` of the whole list, located by its layer. */
  function AnchorAt(width: int, height: int, k: int): Anchor
    requires 0 <= k < LayerStart(|GridCols|)
  {
    if k < LayerStart(1) then LayerAnchor(width, height, 0, k)
    else LayerAnchor(width, height, 1, k - LayerStart(1))
  }

  /** The position of anchor `n` of cell (`x`, `y`) in its layer, and back. */
  lemma CellIndex(x: int, y: int, n: int, cols: int, rows: int, num: int)
    requires 0 <= x < cols && 0 <= y < rows && 0 <= n < num
    ensures var k := (y * cols + x) * num + n;
      0 <= k && k + 1 <= cols * rows * num && (k / num) % cols == x && (k / num) / cols == y
  {
    var cell := y * cols + x;
    DivModOf(cell * num + n, cell, n, num);
    DivModOf(cell, y, x, cols);
    MulMono(cell + 1, cols * rows, num) by {
      MulMono(y + 1, rows, cols);
      assert (y + 1) * cols == y * cols + cols;
    }
    assert cols * rows == rows * cols;
    assert (cell + 1) * num == cell * num + num;
    MulNonNeg(cell, num);
  }

  /** `CreateAnchor`: the layers in order, each cell row by row, each anchor of a cell
      pushed `anchor_num` times with the cell's centre. */
  method CreateAnchor(width: int, height: int) returns (anchors: seq<Anchor>)
    ensures |anchors| == LayerStart(|GridCols|)
    ensures forall k :: 0 <= k < |anchors| ==> anchors[k] == AnchorAt(width, height, k)
  {
    anchors := [];
    for i := 0 to |GridCols|
      invariant |anchors| == LayerStart(i)
      invariant forall k :: 0 <= k < |anchors| ==> anchors[k] == AnchorAt(width, height, k)
    {
      var gridCols := GridCols[i];
      var gridRows := GridRows[i];
      var anchorNum := AnchorNum[i];
      ghost var start := |anchors|;
      for gridY := 0 to gridRows
        invariant |anchors| == start + gridY * gridCols * anchorNum
        invariant forall k :: 0 <= k < |anchors| ==> anchors[k] == AnchorAt(width, height, k)
      {
        var ay := CellCentre(height, gridRows, gridY);
        for gridX := 0 to gridCols
          invariant |anchors| == start + (gridY * gridCols + gridX) * anchorNum
          invariant forall k :: 0 <= k < |anchors| ==> anchors[k] == AnchorAt(width, height, k)
        {
          var ax := CellCentre(width, gridCols, gridX);
          for n := 0 to anchorNum
            invariant |anchors| == start + (gridY * gridCols + gridX) * anchorNum + n
            invariant forall k :: 0 <= k < |anchors| ==> anchors[k] == AnchorAt(width, height, k)
          {
            CellIndex(gridX, gridY, n, gridCols, gridRows, anchorNum);
            anchors := anchors + [(ax, ay)];
          }
        }
      }
    }
  }

  // ---- GetBoundingBox ----

  /** The box of anchor `i`: regressor block i * 16 holds the centre offset and size;
      class_id keeps the anchor index until after NMS. */
  function AnchorBox(scores: seq<real>, reg: seq<real>, anchors: seq<Anchor>, i: int, scaleX: real, scaleY: real)
    : BoundingBox
    requires 0 <= i < |anchors| && i < |scores| && i * 16 + 16 <= |reg|
  {
    MulNonNeg(i, 16);
    var base := i * 16;
    var cx := reg[base] + anchors[i].0;
    var cy := reg[base + 1] + anchors[i].1;
    var w := reg[base + 2];
    var h := reg[base + 3];
    BoundingBox(i, "", scores[i], Trunc((cx - w / 2.0) * scaleX), Trunc((cy - h / 2.0) * scaleY),
      Trunc(w * scaleX), Trunc(h * scaleY))
  }

  /** What the buffers must hold for `n` anchors. */
  predicate BuffersFit(scores: seq<real>, reg: seq<real>, anchors: seq<Anchor>, n: int) {
    0 <= n <= |anchors| && n <= |scores| && n * 16 <= |reg|
  }

  /** The boxes of anchors 0 .. n-1 whose score is strictly above the threshold. */
  function AnchorBoxes(scores: seq<real>, reg: seq<real>, anchors: seq<Anchor>, threshold: real,
                       scaleX: real, scaleY: real, n: int): (boxes: seq<BoundingBox>)
    requires BuffersFit(scores, reg, anchors, n)
    ensures |boxes| <= n
    ensures forall b :: b in boxes ==> 0 <= b.classId < n && b.score > threshold
  {
    if n == 0 then []
    else
      MulMono(n, n, 16);
      assert (n - 1) * 16 + 16 == n * 16;
      var prev := AnchorBoxes(scores, reg, anchors, threshold, scaleX, scaleY, n - 1);
      if scores[n - 1] > threshold then prev + [AnchorBox(scores, reg, anchors, n - 1, scaleX, scaleY)] else prev
  }

  /** The boxes come out in anchor order, so each anchor index appears at most once. */
  lemma {:induction false} AnchorBoxesOrder(scores: seq<real>, reg: seq<real>, anchors: seq<Anchor>, threshold: real,
                                            scaleX: real, scaleY: real, n: int)
    requires BuffersFit(scores, reg, anchors, n)
    ensures Increasing(AnchorBoxes(scores, reg, anchors, threshold, scaleX, scaleY, n))
  {
    if n > 0 {
      assert (n - 1) * 16 + 16 == n * 16;
      MulMono(n - 1, n, 16);
      AnchorBoxesOrder(scores, reg, anchors, threshold, scaleX, scaleY, n - 1);
    }
  }

  /** A box is emitted for anchor `i` exactly when its score beats the threshold. */
  lemma {:induction false} AnchorBoxesComplete(scores: seq<real>, reg: seq<real>, anchors: seq<Anchor>, threshold: real,
                                               scaleX: real, scaleY: real, n: int, i: int)
    requires BuffersFit(scores, reg, anchors, n) && 0 <= i < n
    ensures HasAnchor(AnchorBoxes(scores, reg, anchors, threshold, scaleX, scaleY, n), i) <==> scores[i] > threshold
  {
    assert (n - 1) * 16 + 16 == n * 16;
    MulMono(n - 1, n, 16);
    var prev := AnchorBoxes(scores, reg, anchors, threshold, scaleX, scaleY, n - 1);
    var boxes := AnchorBoxes(scores, reg, anchors, threshold, scaleX, scaleY, n);
    if i < n - 1 {
      AnchorBoxesComplete(scores, reg, anchors, threshold, scaleX, scaleY, n - 1, i);
      if HasAnchor(boxes, i) {
        var j :| 0 <= j < |boxes| && boxes[j].classId == i;
        assert boxes[j] == prev[j];
      }
      if HasAnchor(prev, i) {
        var j :| 0 <= j < |prev| && prev[j].classId == i;
        assert boxes[j] == prev[j];
      }
    } else if scores[i] > threshold {
      assert boxes[|prev|].classId == i;
    } else {
      assert prev[..] == boxes;
      assert !HasAnchor(boxes, i);
    }
  }

  /** `GetBoundingBox`: one test per anchor, in anchor order. */
  method GetBoundingBox(scores: seq<real>, reg: seq<real>, anchors: seq<Anchor>, threshold: real,
                        scaleX: real, scaleY: real) returns (boxes: seq<BoundingBox>)
    requires BuffersFit(scores, reg, anchors, |anchors|)
    ensures boxes == AnchorBoxes(scores, reg, anchors, threshold, scaleX, scaleY, |anchors|)
  {
    boxes := [];
    for i := 0 to |anchors|
      invariant i * 16 <= |reg|
      invariant boxes == AnchorBoxes(scores, reg, anchors, threshold, scaleX, scaleY, i)
    {
      MulMono(i + 1, |anchors|, 16);
      assert i * 16 + 16 == (i + 1) * 16;
      if scores[i] > threshold {
        boxes := boxes + [AnchorBox(scores, reg, anchors, i, scaleX, scaleY)];
      }
    }
  }

  // ---- After NMS ----

  type Keypoint = (int, int)

  /** Keypoint `k` of anchor `a`: regressor[4 + 2k] and regressor[5 + 2k] plus the
      anchor, scaled from tensor pixels to the crop and moved by its origin. */
  function KeypointOf(reg: seq<real>, anchors: seq<Anchor>, a: int, k: int, crop: Crop, width: int, height: int)
    : Keypoint
    requires 0 <= a < |anchors| && a * 16 + 16 <= |reg| && 0 <= k < KeypointNum
    requires width > 0 && height > 0
  {
    MulNonNeg(a, 16);
    var base := a * 16;
    var x := reg[base + 4 + 2 * k] + anchors[a].0;
    var y := reg[base + 4 + 2 * k + 1] + anchors[a].1;
    (Trunc((x * crop.w as real) / width as real + crop.x as real),
     Trunc((y * crop.h as real) / height as real + crop.y as real))
  }

  /** The six keypoints of anchor `a`, in order. */
  function Keypoints(reg: seq<real>, anchors: seq<Anchor>, a: int, crop: Crop, width: int, height: int)
    : (kps: seq<Keypoint>)
    requires 0 <= a < |anchors| && a * 16 + 16 <= |reg| && width > 0 && height > 0
    ensures |kps| == KeypointNum
    ensures forall k :: 0 <= k < KeypointNum ==> kps[k] == KeypointOf(reg, anchors, a, k, crop, width, height)
  {
    seq(KeypointNum, k requires 0 <= k < KeypointNum => KeypointOf(reg, anchors, a, k, crop, width, height))
  }

  /** The adjusted face: class 0, label "FACE", the sigmoid of its logit score, the
      rectangle moved by the crop origin and then fitted to the screen by `fixInScreen`
      (a routine that only touches the rectangle). */
  function FaceBox(b: BoundingBox, crop: Crop, exp: real -> real,
                   fixInScreen: Rect -> Rect): (r: BoundingBox)
    requires forall y :: exp(y) > 0.0
    ensures r.classId == 0 && r.labelName == "FACE" && r.score == Sigmoid(b.score, exp)
    ensures (r.x, r.y, r.w, r.h) == fixInScreen((b.x + crop.x, b.y + crop.y, b.w, b.h))
  {
    var (x, y, w, h) := fixInScreen((b.x + crop.x, b.y + crop.y, b.w, b.h));
    BoundingBox(0, "FACE", Sigmoid(b.score, exp), x, y, w, h)
  }

  /** A box kept by NMS from the decoded candidates still names a valid anchor, so its
      keypoints can be read. */
  lemma KeptNamesAnchor(scores: seq<real>, reg: seq<real>, anchors: seq<Anchor>, threshold: real,
                        scaleX: real, scaleY: real, kept: seq<BoundingBox>)
    requires BuffersFit(scores, reg, anchors, |anchors|)
    requires SelectedFrom(kept, AnchorBoxes(scores, reg, anchors, threshold, scaleX, scaleY, |anchors|))
    ensures forall b :: b in kept ==>
      0 <= b.classId < |anchors| && b.classId * 16 + 16 <= |reg| &&
      scores[b.classId] > threshold
  {
    forall b | b in kept
      ensures 0 <= b.classId < |anchors| && b.classId * 16 + 16 <= |reg|
      ensures scores[b.classId] > threshold
    {
      MulMono(b.classId + 1, |anchors|, 16);
      assert b.classId * 16 + 16 == (b.classId + 1) * 16;
      var boxes := AnchorBoxes(scores, reg, anchors, threshold, scaleX, scaleY, |anchors|);
      var j :| 0 <= j < |boxes| && boxes[j] == b;
      AnchorBoxesComplete(scores, reg, anchors, threshold, scaleX, scaleY, |anchors|, b.classId);
    }
  }

  /** The loop over the NMS output: each face adjusted, and its keypoints appended to a
      list kept parallel to the faces. */
  method AdjustAfterNms(kept: seq<BoundingBox>, reg: seq<real>, anchors: seq<Anchor>, crop: Crop,
                        width: int, height: int, exp: real -> real,
                        fixInScreen: Rect -> Rect)
    returns (faces: seq<BoundingBox>, keypoints: seq<seq<Keypoint>>)
    requires width > 0 && height > 0 && forall y :: exp(y) > 0.0
    requires forall b :: b in kept ==>
      0 <= b.classId < |anchors| && b.classId * 16 + 16 <= |reg|
    ensures |faces| == |kept| && |keypoints| == |kept|
    ensures forall i :: 0 <= i < |kept| ==>
      faces[i] == FaceBox(kept[i], crop, exp, fixInScreen) &&
      keypoints[i] == Keypoints(reg, anchors, kept[i].classId, crop, width, height)
  {
    faces := kept;
    keypoints := [];
    for i := 0 to |kept|
      invariant |faces| == |kept| && |keypoints| == i
      invariant forall k :: 0 <= k < i ==>
        faces[k] == FaceBox(kept[k], crop, exp, fixInScreen) &&
        keypoints[k] == Keypoints(reg, anchors, kept[k].classId, crop, width, height)
      invariant forall k :: i <= k < |kept| ==> faces[k] == kept[k]
    {
      var anchorIndex := faces[i].classId;
      faces := faces[i := FaceBox(faces[i], crop, exp, fixInScreen)];
      var keypoint := [];
      for key := 0 to KeypointNum
        invariant |keypoint| == key
        invariant forall k :: 0 <= k < key ==> keypoint[k] == KeypointOf(reg, anchors, anchorIndex, k, crop, width, height)
      {
        keypoint := keypoint + [KeypointOf(reg, anchors, anchorIndex, key, crop, width, height)];
      }
      keypoints := keypoints + [keypoint];
    }
  }

  /** The part of `Process` before NMS: the score and regressor tensors of the two
      layers are concatenated, the threshold becomes a logit, and boxes are scaled by
      the crop size over the tensor size. */
  method DecodeFaces(score0: seq<real>, reg0: seq<real>, score1: seq<real>, reg1: seq<real>,
                     anchors: seq<Anchor>, crop: Crop, width: int, height: int,
                     thresholdConfidence: real, log: real -> real) returns (boxes: seq<BoundingBox>)
    requires width > 0 && height > 0
    requires BuffersFit(score0 + score1, reg0 + reg1, anchors, |anchors|)
    ensures boxes == AnchorBoxes(score0 + score1, reg0 + reg1, anchors, Logit(thresholdConfidence, log),
      crop.w as real / width as real, crop.h as real / height as real, |anchors|)
    ensures Increasing(boxes)
    ensures forall i :: 0 <= i < |anchors| ==>
      (HasAnchor(boxes, i) <==> (score0 + score1)[i] > Logit(thresholdConfidence, log))
  {
    var scoreList := score0 + score1;
    var regressorList := reg0 + reg1;
    var scoreLogit := Logit(thresholdConfidence, log);
    var scaleX := crop.w as real / width as real;
    var scaleY := crop.h as real / height as real;
    boxes := GetBoundingBox(scoreList, regressorList, anchors, scoreLogit, scaleX, scaleY);
    AnchorBoxesOrder(scoreList, regressorList, anchors, scoreLogit, scaleX, scaleY, |anchors|);
    forall i | 0 <= i < |anchors|
      ensures HasAnchor(boxes, i) <==> scoreList[i] > scoreLogit
    {
      AnchorBoxesComplete(scoreList, regressorList, anchors, scoreLogit, scaleX, scaleY, |anchors|, i);
    }
  }

  /** The crop `Process` computes (Expand mode from the whole image) and the crop it
      reports, which is the whole image. */
  lemma ProcessCrop(cols: int, rows: int, width: int, height: int)
    requires cols > 0 && rows > 0 && width > 0 && height > 0
    requires ExpandDefined(cols, rows, width, height)
    ensures var c := CropResizeCvt(Crop(0, 0, cols, rows), width, height, Expand);
      ResultCrop(c, cols, rows) == Crop(0, 0, cols, rows)
  {
    ExpandWholeImage(cols, rows, width, height);
  }
}

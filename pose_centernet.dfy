// Post-processing of the CenterNet keypoint pose engine: the model's own detection
// list (count, scores, boxes) is read entry by entry, entries below the confidence
// threshold are dropped, every kept box remembers its entry in `classId`, and after
// NMS the 17 keypoints and keypoint scores of each remaining box are read from the
// keypoint tensors at that entry.  NMS itself is an input of the model.

module CenterNetPose {
  import opened Common
  import opened Detections
  import opened CropResize

  /** The model input, NHWC { 1, 480, 640, 3 }. */
  const InputWidth: int := 640
  const InputHeight: int := 480

  /** The number of keypoints of a person. */
  const NumKeypoints: nat := 17

  /** `num_det`: element 0 of output tensor 2, truncated to an integer. */
  function NumDet(numRaw: seq<real>): int
    requires |numRaw| > 0
  {
    Trunc(numRaw[0])
  }

  /** What the score and box tensors must hold for `n` entries. */
  predicate TensorsFit(scoreRaw: seq<real>, bboxRaw: seq<real>, n: int) {
    n <= |scoreRaw| && 4 * n <= |bboxRaw|
  }

  /** The box of entry `i`: the normalised [y0, x0, y1, x1] scaled by the crop and
      moved to its origin, each value truncated; the entry index goes into `classId`
      and the label is empty. */
  function BoxAt(scoreRaw: seq<real>, bboxRaw: seq<real>, i: int, crop: Crop): BoundingBox
    requires 0 <= i && TensorsFit(scoreRaw, bboxRaw, i + 1)
  {
    BoundingBox(i, "", scoreRaw[i],
      AxisPos(bboxRaw[4 * i + 1], crop.w, crop.x), AxisPos(bboxRaw[4 * i], crop.h, crop.y),
      AxisLen(bboxRaw[4 * i + 1], bboxRaw[4 * i + 3], crop.w), AxisLen(bboxRaw[4 * i], bboxRaw[4 * i + 2], crop.h))
  }

  /** A box coordinate: the normalised value scaled by the crop side, truncated, plus
      the crop origin. */
  function AxisPos(start: real, side: int, origin: int): int {
    Trunc(start * side as real) + origin
  }

  /** A box side: the difference of the normalised ends scaled by the crop side,
      truncated. */
  function AxisLen(start: real, end: real, side: int): int {
    Trunc((end - start) * side as real)
  }

  /** The box sits at the truncated scaled corner: its offset from the crop origin is
      within one pixel below the scaled value of a non-negative corner, and a box
      whose raw corners are ordered has a non-negative size. */
  lemma BoxAtCorner(scoreRaw: seq<real>, bboxRaw: seq<real>, i: int, crop: Crop)
    requires 0 <= i && TensorsFit(scoreRaw, bboxRaw, i + 1) && crop.w >= 0 && crop.h >= 0
    ensures AxisAt(BoxAt(scoreRaw, bboxRaw, i, crop).x, BoxAt(scoreRaw, bboxRaw, i, crop).w, crop.x,
                   bboxRaw[4 * i + 1], bboxRaw[4 * i + 3], crop.w)
    ensures AxisAt(BoxAt(scoreRaw, bboxRaw, i, crop).y, BoxAt(scoreRaw, bboxRaw, i, crop).h, crop.y,
                   bboxRaw[4 * i], bboxRaw[4 * i + 2], crop.h)
    ensures var b := BoxAt(scoreRaw, bboxRaw, i, crop);
      b.classId == i && b.score == scoreRaw[i] && b.labelName == ""
  {
    BoxAtX(scoreRaw, bboxRaw, i, crop);
    BoxAtY(scoreRaw, bboxRaw, i, crop);
  }

  lemma BoxAtX(scoreRaw: seq<real>, bboxRaw: seq<real>, i: int, crop: Crop)
    requires 0 <= i && TensorsFit(scoreRaw, bboxRaw, i + 1) && crop.w >= 0
    ensures AxisAt(BoxAt(scoreRaw, bboxRaw, i, crop).x, BoxAt(scoreRaw, bboxRaw, i, crop).w, crop.x,
                   bboxRaw[4 * i + 1], bboxRaw[4 * i + 3], crop.w)
  {
    CornerAxis(bboxRaw[4 * i + 1], bboxRaw[4 * i + 3], crop.w, crop.x);
  }

  lemma BoxAtY(scoreRaw: seq<real>, bboxRaw: seq<real>, i: int, crop: Crop)
    requires 0 <= i && TensorsFit(scoreRaw, bboxRaw, i + 1) && crop.h >= 0
    ensures AxisAt(BoxAt(scoreRaw, bboxRaw, i, crop).y, BoxAt(scoreRaw, bboxRaw, i, crop).h, crop.y,
                   bboxRaw[4 * i], bboxRaw[4 * i + 2], crop.h)
  {
    CornerAxis(bboxRaw[4 * i], bboxRaw[4 * i + 2], crop.h, crop.y);
  }

  /** One axis of a box read from normalised ends `start` and `end` over a crop side
      at `origin`: the position's offset from the origin lies within one pixel
      below the scaled start when that is non-negative, and ordered ends give a
      non-negative length. */
  ghost predicate AxisAt(pos: int, len: int, origin: int, start: real, end: real, side: int) {
    var p := start * side as real;
    (p >= 0.0 ==> (pos - origin) as real <= p < (pos - origin) as real + 1.0) &&
    (start <= end ==> len >= 0)
  }

  lemma CornerAxis(start: real, end: real, side: int, origin: int)
    requires side >= 0
    ensures AxisAt(AxisPos(start, side, origin), AxisLen(start, end, side), origin, start, end, side)
  {
    MulNonNegReal(end - start, side as real);
  }

  lemma MulNonNegReal(a: real, b: real)
    requires b >= 0.0
    ensures a >= 0.0 ==> a * b >= 0.0
  {
  }

  /** The box of every entry below `n` whose score is not below the threshold, in
      entry order. */
  function Candidates(scoreRaw: seq<real>, bboxRaw: seq<real>, n: int, threshold: real, crop: Crop): seq<BoundingBox>
    requires TensorsFit(scoreRaw, bboxRaw, n)
  {
    if n <= 0 then []
    else
      var prev := Candidates(scoreRaw, bboxRaw, n - 1, threshold, crop);
      if scoreRaw[n - 1] < threshold then prev
      else prev + [BoxAt(scoreRaw, bboxRaw, n - 1, crop)]
  }

  /** A box is a candidate exactly when some entry below `n` reaches the threshold and
      yields it; candidates keep their entries in increasing order, each below `n`. */
  lemma {:induction false} CandidatesMembers(scoreRaw: seq<real>, bboxRaw: seq<real>, n: int, threshold: real,
                                             crop: Crop, b: BoundingBox)
    requires TensorsFit(scoreRaw, bboxRaw, n)
    ensures var c := Candidates(scoreRaw, bboxRaw, n, threshold, crop);
      Increasing(c) && (forall k :: 0 <= k < |c| ==> 0 <= c[k].classId < n) &&
      (b in c <==> exists i :: 0 <= i < n && scoreRaw[i] >= threshold && b == BoxAt(scoreRaw, bboxRaw, i, crop))
  {
    if n > 0 {
      CandidatesMembers(scoreRaw, bboxRaw, n - 1, threshold, crop, b);
      if b == BoxAt(scoreRaw, bboxRaw, n - 1, crop) && scoreRaw[n - 1] >= threshold {
        assert 0 <= n - 1 < n;
      }
    }
  }

  /** The threshold loop over the `num_det` entries. */
  method GetBoxes(scoreRaw: seq<real>, bboxRaw: seq<real>, numDet: int, threshold: real, crop: Crop)
    returns (boxes: seq<BoundingBox>)
    requires TensorsFit(scoreRaw, bboxRaw, numDet)
    ensures boxes == Candidates(scoreRaw, bboxRaw, numDet, threshold, crop)
  {
    boxes := [];
    var i := 0;
    while i < numDet
      invariant 0 <= i && (i == 0 || i <= numDet)
      invariant boxes == Candidates(scoreRaw, bboxRaw, i, threshold, crop)
    {
      if scoreRaw[i] < threshold {
        i := i + 1;
        continue;
      }
      boxes := boxes + [BoxAt(scoreRaw, bboxRaw, i, crop)];
      i := i + 1;
    }
  }

  // ---- Keypoints ----

  /** Where keypoint `key` of entry `index` is read: y at index * 34 + 2 key, x right
      after it, and the score at index * 17 + key. */
  function KeypointYOffset(index: int, key: int): int { index * 34 + key * 2 }
  function KeypointScoreOffset(index: int, key: int): int { index * 17 + key }

  /** The offsets decode back into the entry and the keypoint: the tensors hold 17
      (y, x) pairs per entry and 17 scores per entry. */
  lemma KeypointOffsetRoundTrip(index: int, key: int)
    requires index >= 0 && 0 <= key < NumKeypoints
    ensures KeypointYOffset(index, key) / 34 == index && (KeypointYOffset(index, key) % 34) / 2 == key &&
      KeypointYOffset(index, key) % 2 == 0
    ensures (KeypointYOffset(index, key) + 1) / 34 == index && ((KeypointYOffset(index, key) + 1) % 34) / 2 == key &&
      (KeypointYOffset(index, key) + 1) % 2 == 1
    ensures KeypointScoreOffset(index, key) / 17 == index && KeypointScoreOffset(index, key) % 17 == key
  {
    PairOffsetRoundTrip(index, key, 0);
    PairOffsetRoundTrip(index, key, 1);
    DivModOf(index * 17 + key, index, key, 17);
  }

  /** Element `half` (0 for y, 1 for x) of pair `key` of entry `index`. */
  lemma PairOffsetRoundTrip(index: int, key: int, half: int)
    requires index >= 0 && 0 <= key < NumKeypoints && 0 <= half <= 1
    ensures var o := index * 34 + key * 2 + half;
      o / 34 == index && (o % 34) / 2 == key && o % 2 == half
  {
    var o := index * 34 + key * 2 + half;
    DivModOf(o, index, key * 2 + half, 34);
    DivModOf(key * 2 + half, key, half, 2);
    DivModOf(o, index * 17 + key, half, 2);
  }

  /** Two distinct (entry, keypoint) pairs never read the same coordinate or score. */
  lemma KeypointOffsetsDistinct(i1: int, k1: int, i2: int, k2: int)
    requires i1 >= 0 && i2 >= 0 && 0 <= k1 < NumKeypoints && 0 <= k2 < NumKeypoints
    requires i1 != i2 || k1 != k2
    ensures KeypointYOffset(i1, k1) != KeypointYOffset(i2, k2)
    ensures KeypointYOffset(i1, k1) + 1 != KeypointYOffset(i2, k2) + 1
    ensures KeypointYOffset(i1, k1) + 1 != KeypointYOffset(i2, k2)
    ensures KeypointScoreOffset(i1, k1) != KeypointScoreOffset(i2, k2)
  {
    KeypointOffsetRoundTrip(i1, k1);
    KeypointOffsetRoundTrip(i2, k2);
  }

  /** What the keypoint tensors must hold for entry `index`. */
  predicate KeypointsFit(keypointRaw: seq<real>, keypointScoreRaw: seq<real>, index: int) {
    0 <= index && index * 34 + 34 <= |keypointRaw| && index * 17 + 17 <= |keypointScoreRaw|
  }

  /** A normalised coordinate in image pixels: scaled by the crop side, truncated,
      moved by the crop origin. */
  function ToPixel(v: real, side: int, origin: int): int {
    Trunc(v * side as real) + origin
  }

  /** Keypoint `key` of entry `index` in image pixels: x from the odd, y from the even
      element, each scaled by the crop, truncated and moved to its origin. */
  function KeypointAt(keypointRaw: seq<real>, index: int, key: int, crop: Crop): (int, int)
    requires 0 <= index && 0 <= key < NumKeypoints && index * 34 + 34 <= |keypointRaw|
  {
    (ToPixel(keypointRaw[KeypointYOffset(index, key) + 1], crop.w, crop.x),
     ToPixel(keypointRaw[KeypointYOffset(index, key)], crop.h, crop.y))
  }

  /** The 17 keypoints and their scores of one entry. */
  function KeypointsOf(keypointRaw: seq<real>, index: int, crop: Crop): (kps: seq<(int, int)>)
    requires 0 <= index && index * 34 + 34 <= |keypointRaw|
    ensures |kps| == NumKeypoints
  {
    seq(17, key requires 0 <= key < 17 => KeypointAt(keypointRaw, index, key, crop))
  }

  function KeypointScoresOf(keypointScoreRaw: seq<real>, index: int): (scores: seq<real>)
    requires 0 <= index && index * 17 + 17 <= |keypointScoreRaw|
    ensures |scores| == NumKeypoints
    ensures forall key :: 0 <= key < NumKeypoints ==> scores[key] == keypointScoreRaw[KeypointScoreOffset(index, key)]
  {
    keypointScoreRaw[index * 17 .. index * 17 + 17]
  }

  /** One pass of the keypoint loop: keypoint `key` and its score are written. */
  method ReadKeypoint(keypointRaw: seq<real>, keypointScoreRaw: seq<real>, index: int, crop: Crop, key: int,
                      keypoint: seq<(int, int)>, keypointScore: seq<real>)
    returns (keypointOut: seq<(int, int)>, keypointScoreOut: seq<real>)
    requires KeypointsFit(keypointRaw, keypointScoreRaw, index) && 0 <= key < NumKeypoints
    requires |keypoint| == 17 && |keypointScore| == 17
    requires forall k :: 0 <= k < key ==> keypoint[k] == KeypointAt(keypointRaw, index, k, crop)
    requires forall k :: 0 <= k < key ==> keypointScore[k] == keypointScoreRaw[index * 17 + k]
    ensures |keypointOut| == 17 && |keypointScoreOut| == 17
    ensures forall k :: 0 <= k <= key ==> keypointOut[k] == KeypointAt(keypointRaw, index, k, crop)
    ensures forall k :: 0 <= k <= key ==> keypointScoreOut[k] == keypointScoreRaw[index * 17 + k]
  {
    var coordBase := index * 17 * 2;
    var scoreBase := index * 17;
    var x := ToPixel(keypointRaw[coordBase + key * 2 + 1], crop.w, crop.x);
    var y := ToPixel(keypointRaw[coordBase + key * 2 + 0], crop.h, crop.y);
    keypointOut := keypoint[key := (x, y)];
    keypointScoreOut := keypointScore[key := keypointScoreRaw[scoreBase + key]];
  }

  /** The keypoint loop for one box. */
  method ReadKeypoints(keypointRaw: seq<real>, keypointScoreRaw: seq<real>, index: int, crop: Crop)
    returns (keypoint: seq<(int, int)>, keypointScore: seq<real>)
    requires KeypointsFit(keypointRaw, keypointScoreRaw, index)
    ensures keypoint == KeypointsOf(keypointRaw, index, crop)
    ensures keypointScore == KeypointScoresOf(keypointScoreRaw, index)
  {
    keypoint := seq(17, _ => (0, 0));
    keypointScore := seq(17, _ => 0.0);
    for key := 0 to NumKeypoints
      invariant |keypoint| == 17 && |keypointScore| == 17
      invariant forall k :: 0 <= k < key ==> keypoint[k] == KeypointAt(keypointRaw, index, k, crop)
      invariant forall k :: 0 <= k < key ==> keypointScore[k] == keypointScoreRaw[index * 17 + k]
    {
      keypoint, keypointScore := ReadKeypoint(keypointRaw, keypointScoreRaw, index, crop, key, keypoint, keypointScore);
    }
    assert keypointScore == keypointScoreRaw[index * 17 .. index * 17 + 17];
  }

  /** Every box's remembered entry can be looked up in the keypoint tensors. */
  predicate AllKeypointsFit(boxes: seq<BoundingBox>, keypointRaw: seq<real>, keypointScoreRaw: seq<real>) {
    forall j :: 0 <= j < |boxes| ==> KeypointsFit(keypointRaw, keypointScoreRaw, boxes[j].classId)
  }

  /** The keypoint loop over the NMS output: the two lists run parallel to the boxes,
      entry j holding the keypoints of the entry box j remembers. */
  method KeypointLists(kept: seq<BoundingBox>, keypointRaw: seq<real>, keypointScoreRaw: seq<real>, crop: Crop)
    returns (keypointList: seq<seq<(int, int)>>, keypointScoreList: seq<seq<real>>)
    requires AllKeypointsFit(kept, keypointRaw, keypointScoreRaw)
    ensures |keypointList| == |kept| && |keypointScoreList| == |kept|
    ensures forall j :: 0 <= j < |kept| ==>
      keypointList[j] == KeypointsOf(keypointRaw, kept[j].classId, crop) &&
      keypointScoreList[j] == KeypointScoresOf(keypointScoreRaw, kept[j].classId)
  {
    keypointList, keypointScoreList := [], [];
    for j := 0 to |kept|
      invariant |keypointList| == j && |keypointScoreList| == j
      invariant forall m :: 0 <= m < j ==>
        keypointList[m] == KeypointsOf(keypointRaw, kept[m].classId, crop) &&
        keypointScoreList[m] == KeypointScoresOf(keypointScoreRaw, kept[m].classId)
    {
      var keypoint, keypointScore := ReadKeypoints(keypointRaw, keypointScoreRaw, kept[j].classId, crop);
      keypointList := keypointList + [keypoint];
      keypointScoreList := keypointScoreList + [keypointScore];
    }
  }

  /** What the keypoint tensors must hold for `n` entries. */
  predicate KeypointTensorsFit(keypointRaw: seq<real>, keypointScoreRaw: seq<real>, n: int) {
    n * 34 <= |keypointRaw| && n * 17 <= |keypointScoreRaw|
  }

  /** Whatever NMS keeps of the candidates, its keypoints can be read: every candidate
      remembers an entry below `num_det`. */
  lemma KeptKeypointsFit(scoreRaw: seq<real>, bboxRaw: seq<real>, n: int, threshold: real, crop: Crop,
                         kept: seq<BoundingBox>, keypointRaw: seq<real>, keypointScoreRaw: seq<real>)
    requires TensorsFit(scoreRaw, bboxRaw, n) && KeypointTensorsFit(keypointRaw, keypointScoreRaw, n)
    requires SelectedFrom(kept, Candidates(scoreRaw, bboxRaw, n, threshold, crop))
    ensures AllKeypointsFit(kept, keypointRaw, keypointScoreRaw)
  {
    var c := Candidates(scoreRaw, bboxRaw, n, threshold, crop);
    forall j | 0 <= j < |kept|
      ensures KeypointsFit(keypointRaw, keypointScoreRaw, kept[j].classId)
    {
      assert kept[j] in c;
      CandidatesMembers(scoreRaw, bboxRaw, n, threshold, crop, kept[j]);
      var i :| 0 <= i < n && scoreRaw[i] >= threshold && kept[j] == BoxAt(scoreRaw, bboxRaw, i, crop);
      MulMono(i + 1, n, 34);
      MulMono(i + 1, n, 17);
    }
  }

  // ---- Process ----

  /** The crop `Process` uses: Expand mode from the whole image into 640 x 480. */
  function ProcessCrop(cols: int, rows: int): Crop
    requires cols > 0 && rows > 0 && ExpandDefined(cols, rows, InputWidth, InputHeight)
  {
    CropResizeCvt(Crop(0, 0, cols, rows), InputWidth, InputHeight, Expand)
  }

  /** The post-processing of `Process` up to NMS, and the crop it reports. */
  method PostProcess(numRaw: seq<real>, scoreRaw: seq<real>, bboxRaw: seq<real>, cols: int, rows: int,
                     threshold: real) returns (candidates: seq<BoundingBox>, resultCrop: Crop)
    requires cols > 0 && rows > 0 && ExpandDefined(cols, rows, InputWidth, InputHeight)
    requires |numRaw| > 0 && TensorsFit(scoreRaw, bboxRaw, NumDet(numRaw))
    ensures candidates == Candidates(scoreRaw, bboxRaw, NumDet(numRaw), threshold, ProcessCrop(cols, rows))
    ensures forall b :: b in candidates ==> b.score >= threshold && 0 <= b.classId < NumDet(numRaw)
    ensures resultCrop == ResultCrop(ProcessCrop(cols, rows), cols, rows) && resultCrop == Crop(0, 0, cols, rows)
  {
    var crop := ProcessCrop(cols, rows);
    var numDet := NumDet(numRaw);
    candidates := GetBoxes(scoreRaw, bboxRaw, numDet, threshold, crop);
    forall b | b in candidates
      ensures b.score >= threshold && 0 <= b.classId < numDet
    {
      CandidatesMembers(scoreRaw, bboxRaw, numDet, threshold, crop, b);
    }
    ExpandWholeImage(cols, rows, InputWidth, InputHeight);
    resultCrop := ResultCrop(crop, cols, rows);
  }
}

// Post-processing of the HybridNets perception engine: a per-pixel argmax over the
// three segmentation classes, and the decoding of the car boxes against the prior
// boxes, whose count is computed on the first call only.

module HybridNetsDetection {
  import opened Common
  import opened Detections
  import opened CropResize

  /** kLabelListDet and kLabelListSeg. */
  const LabelListDet: seq<string> := ["Car"]
  const LabelListSeg: seq<string> := ["Background", "Lane", "Line"]

  /** IS_NCHW of the shipped model (hybridnets_384x640.tflite). */
  const IsNchw: bool := false

  // ---- Segmentation ----

  /** The class of pixel `p` = y * W + x.  NCHW reads the three channel planes and
      keeps a running maximum that starts at 0 and moves on a strictly greater score;
      NHWC takes std::max_element of the pixel's three scores. */
  function PixelClass(seg: seq<real>, nchw: bool, size: int, p: int): int
    requires 0 <= p < size && 3 * size <= |seg|
  {
    if nchw then StrictMaxOf(Strided(seg, p, size, |LabelListSeg|)).index
    else MaxElementOf(seg[3 * p .. 3 * p + 3])
  }

  /** Every pixel gets one of the three labels.  In NHWC the label's score is the
      first maximum of the pixel's scores; in NCHW a pixel with no positive score is
      background, and otherwise its label holds the first maximum. */
  lemma PixelClassMeaning(seg: seq<real>, nchw: bool, size: int, p: int)
    requires 0 <= p < size && 3 * size <= |seg|
    ensures var c := PixelClass(seg, nchw, size, p);
      0 <= c < |LabelListSeg| &&
      (!nchw ==>
        var row := seg[3 * p .. 3 * p + 3];
        (forall k :: 0 <= k < 3 ==> row[k] <= row[c]) && (forall k :: 0 <= k < c ==> row[k] < row[c])) &&
      (nchw ==>
        ((forall k :: 0 <= k < 3 ==> seg[p + k * size] <= 0.0) ==> c == 0) &&
        (forall k :: 0 <= k < 3 ==> seg[p + k * size] <= RMax(seg[p + c * size], 0.0)))
  {
    if nchw {
      var row := Strided(seg, p, size, |LabelListSeg|);
      var b := StrictMaxOf(row);
      StrictMaxIndexInRange(row);
      if b.score > 0.0 {
        assert row[b.index] == b.score;
      } else {
        assert forall k :: 0 <= k < 3 ==> row[k] <= 0.0;
      }
    }
  }

  /** The body of the argmax loops for pixel `p`: the running maximum over the three
      channel planes (NCHW) or std::max_element of the pixel's three scores (NHWC). */
  method ClassifyPixel(seg: seq<real>, nchw: bool, size: int, p: int) returns (classIndexMax: int)
    requires 0 <= p < size && 3 * size <= |seg|
    ensures classIndexMax == PixelClass(seg, nchw, size, p)
  {
    if nchw {
      var scores := Strided(seg, p, size, |LabelListSeg|);
      var best := ScanStrictMax(scores, 0, |LabelListSeg|);
      assert scores[0..|LabelListSeg|] == scores;
      classIndexMax := best.index;
    } else {
      classIndexMax := MaxElementOf(seg[3 * p .. 3 * p + 3]);
    }
  }

  /** The argmax loops: rows, then pixels, writing mat_seg_max in row-major order. */
  method SegmentationArgMax(seg: seq<real>, nchw: bool, width: int, height: int) returns (segMax: seq<int>)
    requires width > 0 && height > 0 && 3 * (width * height) <= |seg|
    ensures |segMax| == width * height
    ensures forall p :: 0 <= p < width * height ==> segMax[p] == PixelClass(seg, nchw, width * height, p)
  {
    var size := width * height;
    segMax := [];
    for y := 0 to height
      invariant |segMax| == y * width
      invariant forall p :: 0 <= p < |segMax| ==> segMax[p] == PixelClass(seg, nchw, size, p)
    {
      MulMono(y + 1, height, width);
      assert height * width == size;
      for x := 0 to width
        invariant |segMax| == y * width + x
        invariant forall p :: 0 <= p < |segMax| ==> segMax[p] == PixelClass(seg, nchw, size, p)
      {
        RowMajor(x, y, width, height);
        var p := y * width + x;
        var classIndexMax := ClassifyPixel(seg, nchw, size, p);
        segMax := segMax + [classIndexMax];
      }
      assert y * width + width == (y + 1) * width;
    }
    assert height * width == size;
  }

  // ---- Boxes ----

  /** The prior boxes (y0, x0, y1, x1) and the four variances of the model. */
  datatype Priors = Priors(bbox: seq<real>, variance: seq<real>)

  /** What the tensors and the prior table must hold for `n` priors. */
  predicate PriorsFit(confidence: seq<real>, bboxList: seq<real>, priors: Priors, n: int) {
    0 <= n <= |confidence| && 4 * n <= |bboxList| && 4 * n <= |priors.bbox| && |priors.variance| == 4
  }

  /** The box of prior `i`: the regression (cy, cx, h, w) at i * 4 moves the prior's
      centre in proportion to its size and scales its size by an exponential, then
      the box is taken to crop pixels.  Only class 0, "Car", exists. */
  function PriorBox(confidence: seq<real>, bboxList: seq<real>, priors: Priors, i: int,
                    scaleW: real, scaleH: real, exp: real -> real): BoundingBox
    requires 0 <= i && PriorsFit(confidence, bboxList, priors, i + 1)
  {
    var pi := i * 4;
    var priorX0 := priors.bbox[pi + 1];
    var priorY0 := priors.bbox[pi];
    var priorX1 := priors.bbox[pi + 3];
    var priorY1 := priors.bbox[pi + 2];
    var priorCx := (priorX0 + priorX1) / 2.0;
    var priorCy := (priorY0 + priorY1) / 2.0;
    var priorW := priorX1 - priorX0;
    var priorH := priorY1 - priorY0;
    var cx := priors.variance[1] * bboxList[pi + 1] * priorW + priorCx;
    var cy := priors.variance[0] * bboxList[pi] * priorH + priorCy;
    var w := exp(bboxList[pi + 3] * priors.variance[3]) * priorW;
    var h := exp(bboxList[pi + 2] * priors.variance[2]) * priorH;
    BoundingBox(0, LabelListDet[0], confidence[i], Trunc((cx - w / 2.0) * scaleW), Trunc((cy - h / 2.0) * scaleH),
      Trunc(w * scaleW), Trunc(h * scaleH))
  }

  /** The boxes of priors 0 .. n-1 whose class score reaches the threshold. */
  function PriorBoxes(confidence: seq<real>, bboxList: seq<real>, priors: Priors, threshold: real,
                      scaleW: real, scaleH: real, exp: real -> real, n: int): (boxes: seq<BoundingBox>)
    requires PriorsFit(confidence, bboxList, priors, n)
  {
    if n == 0 then []
    else
      var prev := PriorBoxes(confidence, bboxList, priors, threshold, scaleW, scaleH, exp, n - 1);
      if confidence[n - 1] >= threshold then prev + [PriorBox(confidence, bboxList, priors, n - 1, scaleW, scaleH, exp)]
      else prev
  }

  /** A box is produced exactly when some prior reaches the threshold and yields it;
      every box is a car with a score at or above the threshold. */
  lemma {:induction false} PriorBoxesMembers(confidence: seq<real>, bboxList: seq<real>, priors: Priors, threshold: real,
                                             scaleW: real, scaleH: real, exp: real -> real, n: int, b: BoundingBox)
    requires PriorsFit(confidence, bboxList, priors, n)
    ensures |PriorBoxes(confidence, bboxList, priors, threshold, scaleW, scaleH, exp, n)| <= n
    ensures b in PriorBoxes(confidence, bboxList, priors, threshold, scaleW, scaleH, exp, n) <==>
      exists i :: 0 <= i < n && confidence[i] >= threshold && b == PriorBox(confidence, bboxList, priors, i, scaleW, scaleH, exp)
    ensures b in PriorBoxes(confidence, bboxList, priors, threshold, scaleW, scaleH, exp, n) ==>
      b.classId == 0 && b.labelName == "Car" && b.score >= threshold
  {
    if n > 0 {
      PriorBoxesMembers(confidence, bboxList, priors, threshold, scaleW, scaleH, exp, n - 1, b);
      if b == PriorBox(confidence, bboxList, priors, n - 1, scaleW, scaleH, exp) && confidence[n - 1] >= threshold {
        assert 0 <= n - 1 < n;
      }
    }
  }

  /** The engine's state across calls: kNumPrior, a function-static initialised from
      the size of the regression tensor on the first call. */
  class HybridNetsEngine {
    var numPrior: Option<int>

    constructor ()
      ensures numPrior == None
    {
      numPrior := None;
    }

    /** The prior count the next call will use. */
    function NextNumPrior(bboxList: seq<real>): (n: int)
      reads this
      ensures n >= 0
      ensures numPrior.None? ==> n == |bboxList| / 4 / |LabelListDet|
      ensures numPrior.Some? && numPrior.value >= 0 ==> n == numPrior.value
    {
      if numPrior.Some? then Max(numPrior.value, 0) else |bboxList| / 4 / |LabelListDet|
    }

    /** The prior loop of `Process` with the boxes moved by the crop origin afterwards.
        The count is fixed by the first call and never changes again. */
    method DecodeBoxes(confidence: seq<real>, bboxList: seq<real>, priors: Priors, threshold: real,
                       crop: Crop, width: int, height: int, exp: real -> real) returns (boxes: seq<BoundingBox>)
      requires width > 0 && height > 0
      requires numPrior.Some? ==> numPrior.value >= 0
      requires PriorsFit(confidence, bboxList, priors, NextNumPrior(bboxList))
      modifies this
      ensures numPrior == if old(numPrior).None? then Some(|bboxList| / 4) else old(numPrior)
      ensures var c := PriorBoxes(confidence, bboxList, priors, threshold,
          crop.w as real / width as real, crop.h as real / height as real, exp, numPrior.value);
        |boxes| == |c| && forall i :: 0 <= i < |c| ==> boxes[i] == c[i].(x := c[i].x + crop.x, y := c[i].y + crop.y)
    {
      var scaleW := crop.w as real / width as real;
      var scaleH := crop.h as real / height as real;
      if numPrior.None? {
        numPrior := Some(|bboxList| / 4 / |LabelListDet|);
      }
      var n := numPrior.value;
      boxes := [];
      for i := 0 to n
        invariant boxes == PriorBoxes(confidence, bboxList, priors, threshold, scaleW, scaleH, exp, i)
      {
        var classScore := confidence[i];
        if classScore >= threshold {
          boxes := boxes + [PriorBox(confidence, bboxList, priors, i, scaleW, scaleH, exp)];
        }
      }
      ghost var c := boxes;
      for i := 0 to |boxes|
        invariant |boxes| == |c|
        invariant forall k :: 0 <= k < i ==> boxes[k] == c[k].(x := c[k].x + crop.x, y := c[k].y + crop.y)
        invariant forall k :: i <= k < |c| ==> boxes[k] == c[k]
      {
        boxes := boxes[i := boxes[i].(x := boxes[i].x + crop.x, y := boxes[i].y + crop.y)];
      }
    }
  }

  /** The crop of `Process` is Stretch mode from the whole image, so the crop it
      reports after clamping is the whole image. */
  lemma ProcessCrop(cols: int, rows: int, width: int, height: int)
    requires cols > 0 && rows > 0 && width > 0 && height > 0
    ensures var c := CropResizeCvt(Crop(0, 0, cols, rows), width, height, Stretch);
      c == Crop(0, 0, cols, rows) && ResultCrop(c, cols, rows) == Crop(0, 0, cols, rows)
  {
    StretchKeepsCrop(Crop(0, 0, cols, rows), width, height);
    ResultCropProperties(Crop(0, 0, cols, rows), cols, rows);
  }
}

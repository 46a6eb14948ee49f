// Post-processing of the YOLOv5 detection engine of the tracking demo: a centred
// crop with the tensor's aspect ratio, three grid scales read one after the other
// from a single output buffer, then boxes rescaled from tensor to image pixels.

module Yolov5Detection {
  import opened Common
  import opened Detections
  import opened GridDecoding
  import opened CropResize

  const GridScaleList: seq<int> := [8, 16, 32]
  const GridChannel: int := 3
  const NumberOfClass: nat := 80
  const ThresholdScore: real := 0.2

  /** 85 floats per record; both gates at 0.2. */
  const Yolov5Format: Format := Format(NumberOfClass, ThresholdScore, ThresholdScore)

  /** The records of one scale: grid_w * grid_h cells of three anchors. */
  function ScaleRecords(width: int, height: int, i: int): nat
    requires width >= 0 && height >= 0 && 0 <= i < |GridScaleList|
  {
    MulNonNeg(width / GridScaleList[i], height / GridScaleList[i]);
    MulNonNeg((width / GridScaleList[i]) * (height / GridScaleList[i]), GridChannel);
    (width / GridScaleList[i]) * (height / GridScaleList[i]) * GridChannel
  }

  /** Where the records of scale `i` start: the read position in the output after the earlier
      scales advanced it by grid_w * grid_h * 3 * 85 each. */
  function ScaleOffset(width: int, height: int, i: int): (offset: nat)
    requires width >= 0 && height >= 0 && 0 <= i <= |GridScaleList|
    ensures i > 0 ==> offset == ScaleOffset(width, height, i - 1) + ScaleRecords(width, height, i - 1) * Width(Yolov5Format)
  {
    if i == 0 then 0
    else
      MulNonNeg(ScaleRecords(width, height, i - 1), Width(Yolov5Format));
      ScaleOffset(width, height, i - 1) + ScaleRecords(width, height, i - 1) * Width(Yolov5Format)
  }

  /** The offsets grow with the scale index, so every scale's records lie before
      the end of the last one. */
  lemma {:induction false} ScaleOffsetMono(width: int, height: int, i: int, j: int)
    requires width >= 0 && height >= 0 && 0 <= i <= j <= |GridScaleList|
    ensures ScaleOffset(width, height, i) <= ScaleOffset(width, height, j)
    decreases j - i
  {
    if i < j {
      ScaleOffsetMono(width, height, i, j - 1);
      MulNonNeg(ScaleRecords(width, height, j - 1), Width(Yolov5Format));
    }
  }

  /** The candidate boxes of the first `i` scales, in tensor pixels: the record size
      and centre are scaled by the tensor's width and height. */
  function Candidates(output: seq<real>, width: int, height: int, i: int): seq<BoundingBox>
    requires width > 0 && height > 0 && 0 <= i <= |GridScaleList|
    requires ScaleOffset(width, height, |GridScaleList|) <= |output|
  {
    if i == 0 then []
    else
      ScaleOffsetMono(width, height, i, |GridScaleList|);
      var offset := ScaleOffset(width, height, i - 1);
      Candidates(output, width, height, i - 1) +
      DecodedRecords(output[offset..], ScaleRecords(width, height, i - 1), Yolov5Format, width as real, height as real)
  }

  /** Every candidate names one of the 80 classes and passed the 0.2 gate. */
  lemma {:induction false} CandidateClasses(output: seq<real>, width: int, height: int, i: int)
    requires width > 0 && height > 0 && 0 <= i <= |GridScaleList|
    requires ScaleOffset(width, height, |GridScaleList|) <= |output|
    ensures forall b :: b in Candidates(output, width, height, i) ==>
      0 <= b.classId < NumberOfClass && b.score >= ThresholdScore
  {
    if i > 0 {
      CandidateClasses(output, width, height, i - 1);
      ScaleOffsetMono(width, height, i, |GridScaleList|);
      var offset := ScaleOffset(width, height, i - 1);
      DecodedRecordsClasses(output[offset..], ScaleRecords(width, height, i - 1), Yolov5Format, width as real, height as real);
    }
  }

  /** The records of scale `i`, counted rows first as `GetBoundingBox` reads
      them, lie inside the output, and the read position moves past them to
      the next scale's offset. */
  lemma ScaleFits(output: seq<real>, width: int, height: int, i: int)
    requires width > 0 && height > 0 && 0 <= i < |GridScaleList|
    requires ScaleOffset(width, height, |GridScaleList|) <= |output|
    ensures var gridW, gridH := width / GridScaleList[i], height / GridScaleList[i];
      && 0 <= gridW && 0 <= gridH
      && ScaleRecords(width, height, i) == gridH * gridW * GridChannel
      && ScaleOffset(width, height, i) + gridH * gridW * GridChannel * Width(Yolov5Format) <= |output|
      && ScaleOffset(width, height, i) + gridW * gridH * GridChannel * Width(Yolov5Format) == ScaleOffset(width, height, i + 1)
  {
    var gridW, gridH := width / GridScaleList[i], height / GridScaleList[i];
    assert ScaleRecords(width, height, i) == gridH * gridW * GridChannel by {
      ScaleRecordsRowsFirst(width, height, i);
    }
    assert ScaleOffset(width, height, i) + ScaleRecords(width, height, i) * Width(Yolov5Format) <= |output| by {
      ScaleOffsetMono(width, height, i + 1, |GridScaleList|);
    }
  }

  /** Counted rows first, as `GetBoundingBox` reads them, the records of a scale
      are the same number. */
  lemma ScaleRecordsRowsFirst(width: int, height: int, i: int)
    requires width > 0 && height > 0 && 0 <= i < |GridScaleList|
    ensures ScaleRecords(width, height, i) == (height / GridScaleList[i]) * (width / GridScaleList[i]) * GridChannel
  {
    var w, h := width / GridScaleList[i], height / GridScaleList[i];
    assert w * h == h * w;
  }

  /** The boxes of scale `i` extend the candidates of the scales before it. */
  lemma CandidatesStep(output: seq<real>, width: int, height: int, i: int, scaleBoxes: seq<BoundingBox>)
    requires width > 0 && height > 0 && 0 <= i < |GridScaleList|
    requires ScaleOffset(width, height, |GridScaleList|) <= |output|
    requires ScaleOffset(width, height, i) <= |output|
    requires scaleBoxes == DecodedRecords(output[ScaleOffset(width, height, i)..], ScaleRecords(width, height, i),
                                          Yolov5Format, width as real, height as real)
    ensures Candidates(output, width, height, i + 1) == Candidates(output, width, height, i) + scaleBoxes
  {
  }

  /** One pass of the per-scale loop: grid_w = width / scale, and so on; the
      read position moves past the scale's records. */
  method DecodeScale(output: seq<real>, width: int, height: int, i: int, boxes: seq<BoundingBox>, offset: int)
    returns (boxesOut: seq<BoundingBox>, offsetOut: int)
    requires width > 0 && height > 0 && 0 <= i < |GridScaleList|
    requires ScaleOffset(width, height, |GridScaleList|) <= |output|
    requires offset == ScaleOffset(width, height, i) && boxes == Candidates(output, width, height, i)
    ensures offsetOut == ScaleOffset(width, height, i + 1) && boxesOut == Candidates(output, width, height, i + 1)
  {
    assert 0 <= offset <= |output| by {
      ScaleOffsetMono(width, height, i, |GridScaleList|);
    }
    ScaleFits(output, width, height, i);
    var scale := GridScaleList[i];
    var gridW := width / scale;
    var gridH := height / scale;
    var scaleBoxes := GetBoundingBox(output[offset..], Yolov5Format, width as real, height as real, gridW, gridH, GridChannel);
    CandidatesStep(output, width, height, i, scaleBoxes);
    boxesOut := boxes + scaleBoxes;
    offsetOut := offset + gridW * gridH * GridChannel * Width(Yolov5Format);
  }

  /** The per-scale loop of `Process`. */
  method DecodeScales(output: seq<real>, width: int, height: int) returns (boxes: seq<BoundingBox>)
    requires width > 0 && height > 0
    requires ScaleOffset(width, height, |GridScaleList|) <= |output|
    ensures boxes == Candidates(output, width, height, |GridScaleList|)
  {
    boxes := [];
    var offset := 0;
    for i := 0 to |GridScaleList|
      invariant offset == ScaleOffset(width, height, i)
      invariant boxes == Candidates(output, width, height, i)
    {
      boxes, offset := DecodeScale(output, width, height, i, boxes, offset);
    }
  }

  /** A box in tensor pixels mapped back to the original image: scaled by crop size
      over tensor size with C integer division, offset by the crop origin, and
      labelled from the label list. */
  function Rescaled(b: BoundingBox, crop: Crop, width: int, height: int, labels: seq<string>): BoundingBox
    requires width > 0 && height > 0 && 0 <= b.classId < |labels|
  {
    b.(x := CDiv(b.x * crop.w, width) + crop.x, y := CDiv(b.y * crop.h, height) + crop.y,
       w := CDiv(b.w * crop.w, width), h := CDiv(b.h * crop.h, height),
       labelName := labels[b.classId])
  }

  lemma DivSum(a: int, b: int, d: int)
    requires a >= 0 && b >= 0 && d > 0
    ensures a / d + b / d <= (a + b) / d
  {
    DivModOf(a, a / d, a % d, d);
    DivModOf(b, b / d, b % d, d);
    DivShift(a % d + b % d, a / d + b / d, d);
    assert a + b == a % d + b % d + (a / d + b / d) * d;
    DivMono(0, a % d + b % d, d);
  }

  /** One axis of the rescale: a span inside [0, size] maps into [origin, origin + len]. */
  lemma AxisInside(p: int, q: int, size: int, origin: int, len: int)
    requires size > 0 && len >= 0 && 0 <= p && 0 <= q && p + q <= size
    ensures origin <= CDiv(p * len, size) + origin
    ensures CDiv(p * len, size) + origin + CDiv(q * len, size) <= origin + len
  {
    MulNonNeg(p, len);
    MulNonNeg(q, len);
    DivMono(0, p * len, size);
    DivSum(p * len, q * len, size);
    MulMono(p + q, size, len);
    assert p * len + q * len == (p + q) * len;
    DivMono(p * len + q * len, size * len, size);
    DivShift(0, len, size);
    assert size * len == 0 + len * size;
  }

  /** A box that lies inside the tensor is mapped inside the crop, keeping its class
      and score and taking the label of its class. */
  lemma RescaledInsideCrop(b: BoundingBox, crop: Crop, width: int, height: int, labels: seq<string>)
    requires width > 0 && height > 0 && 0 <= b.classId < |labels| && crop.w >= 0 && crop.h >= 0
    requires 0 <= b.x && 0 <= b.w && b.x + b.w <= width && 0 <= b.y && 0 <= b.h && b.y + b.h <= height
    ensures var r := Rescaled(b, crop, width, height, labels);
      r.classId == b.classId && r.score == b.score && r.labelName == labels[b.classId] &&
      crop.x <= r.x && r.x + r.w <= crop.x + crop.w && crop.y <= r.y && r.y + r.h <= crop.y + crop.h
  {
    AxisInside(b.x, b.w, width, crop.x, crop.w);
    AxisInside(b.y, b.h, height, crop.y, crop.h);
  }

  /** The in-place rescale loop over the candidate list. */
  method RescaleAll(boxes: seq<BoundingBox>, crop: Crop, width: int, height: int, labels: seq<string>)
    returns (out: seq<BoundingBox>)
    requires width > 0 && height > 0
    requires forall b :: b in boxes ==> 0 <= b.classId < |labels|
    ensures |out| == |boxes|
    ensures forall i :: 0 <= i < |boxes| ==> out[i] == Rescaled(boxes[i], crop, width, height, labels)
  {
    out := boxes;
    for i := 0 to |boxes|
      invariant |out| == |boxes|
      invariant forall k :: 0 <= k < i ==> out[k] == Rescaled(boxes[k], crop, width, height, labels)
      invariant forall k :: i <= k < |boxes| ==> out[k] == boxes[k]
    {
      out := out[i := Rescaled(boxes[i], crop, width, height, labels)];
    }
  }

  /** The candidates of all three scales, each rescaled to the original image. */
  function RescaledCandidates(output: seq<real>, crop: Crop, width: int, height: int, labels: seq<string>)
    : (r: seq<BoundingBox>)
    requires width > 0 && height > 0
    requires ScaleOffset(width, height, |GridScaleList|) <= |output|
    requires |labels| >= NumberOfClass
    ensures var c := Candidates(output, width, height, |GridScaleList|);
      |r| == |c| && forall i :: 0 <= i < |c| ==> 0 <= c[i].classId < |labels| && r[i] == Rescaled(c[i], crop, width, height, labels)
  {
    var c := Candidates(output, width, height, |GridScaleList|);
    CandidateClasses(output, width, height, |GridScaleList|);
    seq(|c|, i requires 0 <= i < |c| => Rescaled(c[i], crop, width, height, labels))
  }

  /** The post-processing of `Process` up to NMS: the crop, the candidates of the
      three scales and their rescaled copies, ready for NMS. */
  method PostProcess(output: seq<real>, cols: int, rows: int, width: int, height: int, labels: seq<string>)
    returns (crop: Crop, boxes: seq<BoundingBox>)
    requires cols > 0 && rows > 0 && width > 0 && height > 0
    requires ScaleOffset(width, height, |GridScaleList|) <= |output|
    requires |labels| >= NumberOfClass
    ensures crop == CentreCrop(cols, rows, width, height)
    ensures boxes == RescaledCandidates(output, crop, width, height, labels)
  {
    crop := CentreCrop(cols, rows, width, height);
    var candidates := DecodeScales(output, width, height);
    CandidateClasses(output, width, height, |GridScaleList|);
    boxes := RescaleAll(candidates, crop, width, height, labels);
    assert boxes == RescaledCandidates(output, crop, width, height, labels);
  }

  /** The result crop is the crop itself, which lies inside the image. */
  lemma ResultCropInImage(cols: int, rows: int, width: int, height: int)
    requires cols > 0 && rows > 0 && width > 0 && height > 0
    ensures InImage(CentreCrop(cols, rows, width, height), cols, rows)
    ensures ResultCrop(CentreCrop(cols, rows, width, height), cols, rows) == CentreCrop(cols, rows, width, height)
  {
    ResultCropProperties(CentreCrop(cols, rows, width, height), cols, rows);
  }
}

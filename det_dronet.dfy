// Post-processing of the DroNet (V3) detection engine: the image is placed in the
// tensor with Expand mode, each of the two grid scales is decoded from its own
// output tensor, and the boxes are moved by the crop origin.

module DroNetDetection {
  import opened Common
  import opened Detections
  import opened GridDecoding
  import opened CropResize

  const GridScaleList: seq<int> := [32, 16]
  const GridChannel: int := 3
  const NumberOfClass: nat := 2

  /** Seven floats per record; the two gates are the engine's configurable thresholds. */
  function DroNetFormat(boxThreshold: real, classThreshold: real): Format {
    Format(NumberOfClass, boxThreshold, classThreshold)
  }

  /** The records of scale `i`: (width / scale) * (height / scale) cells of three anchors. */
  function ScaleRecords(width: int, height: int, i: int): nat
    requires width >= 0 && height >= 0 && 0 <= i < |GridScaleList|
  {
    MulNonNeg(height / GridScaleList[i], width / GridScaleList[i]);
    MulNonNeg((height / GridScaleList[i]) * (width / GridScaleList[i]), GridChannel);
    (height / GridScaleList[i]) * (width / GridScaleList[i]) * GridChannel
  }

  /** Output tensor `i` holds all the records of scale `i`. */
  predicate OutputsFit(outputs: seq<seq<real>>, width: int, height: int)
    requires width >= 0 && height >= 0
  {
    |outputs| >= |GridScaleList| &&
    forall i :: 0 <= i < |GridScaleList| ==> ScaleRecords(width, height, i) * (NumberOfClass + 5) <= |outputs[i]|
  }

  /** The crop `Process` computes: Expand mode from the whole image. */
  function ProcessCrop(cols: int, rows: int, width: int, height: int): Crop
    requires cols > 0 && rows > 0 && width > 0 && height > 0
    requires ExpandDefined(cols, rows, width, height)
  {
    CropResizeCvt(Crop(0, 0, cols, rows), width, height, Expand)
  }

  /** The candidates of the first `i` scales, scaled straight to crop pixels. */
  function Candidates(outputs: seq<seq<real>>, width: int, height: int, crop: Crop,
                      boxThreshold: real, classThreshold: real, i: int): seq<BoundingBox>
    requires width >= 0 && height >= 0 && 0 <= i <= |GridScaleList|
    requires OutputsFit(outputs, width, height)
  {
    if i == 0 then []
    else
      Candidates(outputs, width, height, crop, boxThreshold, classThreshold, i - 1) +
      DecodedRecords(outputs[i - 1], ScaleRecords(width, height, i - 1),
        DroNetFormat(boxThreshold, classThreshold), crop.w as real, crop.h as real)
  }

  /** Every candidate is a car or a non-car and passed the class gate. */
  lemma {:induction false} CandidateClasses(outputs: seq<seq<real>>, width: int, height: int, crop: Crop,
                                            boxThreshold: real, classThreshold: real, i: int)
    requires width >= 0 && height >= 0 && 0 <= i <= |GridScaleList|
    requires OutputsFit(outputs, width, height)
    ensures forall b :: b in Candidates(outputs, width, height, crop, boxThreshold, classThreshold, i) ==>
      0 <= b.classId < NumberOfClass && b.score >= classThreshold
  {
    if i > 0 {
      CandidateClasses(outputs, width, height, crop, boxThreshold, classThreshold, i - 1);
      DecodedRecordsClasses(outputs[i - 1], ScaleRecords(width, height, i - 1),
        DroNetFormat(boxThreshold, classThreshold), crop.w as real, crop.h as real);
    }
  }

  /** The per-scale loop: scale `i` reads output tensor `i` from its start (the local
      read-position advance at the end of the loop body is never read). */
  method DecodeScales(outputs: seq<seq<real>>, width: int, height: int, crop: Crop,
                      boxThreshold: real, classThreshold: real) returns (boxes: seq<BoundingBox>)
    requires width >= 0 && height >= 0
    requires OutputsFit(outputs, width, height)
    ensures boxes == Candidates(outputs, width, height, crop, boxThreshold, classThreshold, |GridScaleList|)
  {
    boxes := [];
    for i := 0 to |GridScaleList|
      invariant boxes == Candidates(outputs, width, height, crop, boxThreshold, classThreshold, i)
    {
      var gridW := width / GridScaleList[i];
      var gridH := height / GridScaleList[i];
      var scaleBoxes := GetBoundingBox(outputs[i], DroNetFormat(boxThreshold, classThreshold),
        crop.w as real, crop.h as real, gridW, gridH, GridChannel);
      boxes := boxes + scaleBoxes;
    }
  }

  /** The adjust loop: every box moves by the crop origin and gets an empty label;
      nothing else about it changes. */
  method AdjustBoxes(boxes: seq<BoundingBox>, crop: Crop) returns (out: seq<BoundingBox>)
    ensures |out| == |boxes|
    ensures forall i :: 0 <= i < |boxes| ==>
      out[i] == boxes[i].(x := boxes[i].x + crop.x, y := boxes[i].y + crop.y, labelName := "")
  {
    out := boxes;
    for i := 0 to |boxes|
      invariant |out| == |boxes|
      invariant forall k :: 0 <= k < i ==>
        out[k] == boxes[k].(x := boxes[k].x + crop.x, y := boxes[k].y + crop.y, labelName := "")
      invariant forall k :: i <= k < |boxes| ==> out[k] == boxes[k]
    {
      out := out[i := out[i].(x := out[i].x + crop.x, y := out[i].y + crop.y, labelName := "")];
    }
  }

  /** The post-processing of `Process` up to NMS, and the crop it reports. */
  method PostProcess(outputs: seq<seq<real>>, cols: int, rows: int, width: int, height: int,
                     boxThreshold: real, classThreshold: real)
    returns (boxes: seq<BoundingBox>, resultCrop: Crop)
    requires cols > 0 && rows > 0 && width > 0 && height > 0
    requires ExpandDefined(cols, rows, width, height)
    requires OutputsFit(outputs, width, height)
    ensures var crop := ProcessCrop(cols, rows, width, height);
      var c := Candidates(outputs, width, height, crop, boxThreshold, classThreshold, |GridScaleList|);
      |boxes| == |c| &&
      (forall i :: 0 <= i < |c| ==>
        boxes[i] == c[i].(x := c[i].x + crop.x, y := c[i].y + crop.y, labelName := "") &&
        0 <= boxes[i].classId < NumberOfClass) &&
      resultCrop == ResultCrop(crop, cols, rows) && resultCrop == Crop(0, 0, cols, rows)
  {
    var crop := ProcessCrop(cols, rows, width, height);
    var candidates := DecodeScales(outputs, width, height, crop, boxThreshold, classThreshold);
    CandidateClasses(outputs, width, height, crop, boxThreshold, classThreshold, |GridScaleList|);
    boxes := AdjustBoxes(candidates, crop);
    ExpandWholeImage(cols, rows, width, height);
    resultCrop := ResultCrop(crop, cols, rows);
  }
}

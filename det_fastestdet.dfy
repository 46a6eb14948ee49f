// Post-processing of the FastestDet detection engine: the whole image is
// stretched into the tensor, tensor_dims[1] records are read one after the
// other, and each box is moved by the crop origin and labelled.

module FastestDetDetection {
  import opened Common
  import opened Detections
  import opened GridDecoding
  import opened CropResize

  const NumberOfClass: nat := 80

  /** 85 floats per record; the two gates are the engine's configurable thresholds. */
  function FastestDetFormat(boxThreshold: real, classThreshold: real): Format {
    Format(NumberOfClass, boxThreshold, classThreshold)
  }

  /** The crop of `Process`: Stretch mode from the whole image, which leaves it whole. */
  function ProcessCrop(cols: int, rows: int, width: int, height: int): (c: Crop)
    requires cols > 0 && rows > 0 && width > 0 && height > 0
    ensures c == Crop(0, 0, cols, rows)
  {
    StretchKeepsCrop(Crop(0, 0, cols, rows), width, height);
    CropResizeCvt(Crop(0, 0, cols, rows), width, height, Stretch)
  }

  /** The candidates: `num` records with centre and size multiplied by the crop size. */
  function Candidates(output: seq<real>, num: int, crop: Crop, boxThreshold: real, classThreshold: real)
    : seq<BoundingBox>
    requires 0 <= num && num * (NumberOfClass + 5) <= |output|
  {
    DecodedRecords(output, num, FastestDetFormat(boxThreshold, classThreshold), crop.w as real, crop.h as real)
  }

  /** The adjust loop: every box moves by the crop origin and takes the label of its
      class; nothing else about it changes. */
  method LabelBoxes(boxes: seq<BoundingBox>, crop: Crop, labels: seq<string>) returns (out: seq<BoundingBox>)
    requires forall b :: b in boxes ==> 0 <= b.classId < |labels|
    ensures |out| == |boxes|
    ensures forall i :: 0 <= i < |boxes| ==>
      out[i] == boxes[i].(x := boxes[i].x + crop.x, y := boxes[i].y + crop.y, labelName := labels[boxes[i].classId])
  {
    out := boxes;
    for i := 0 to |boxes|
      invariant |out| == |boxes|
      invariant forall k :: 0 <= k < i ==>
        out[k] == boxes[k].(x := boxes[k].x + crop.x, y := boxes[k].y + crop.y, labelName := labels[boxes[k].classId])
      invariant forall k :: i <= k < |boxes| ==> out[k] == boxes[k]
    {
      out := out[i := out[i].(x := out[i].x + crop.x, y := out[i].y + crop.y, labelName := labels[out[i].classId])];
    }
  }

  /** The post-processing of `Process` up to NMS.  `num` is tensor_dims[1] of the
      output; a box is kept exactly when some record passes both gates, and then it
      carries its class's label. */
  method PostProcess(output: seq<real>, num: int, cols: int, rows: int, width: int, height: int,
                     boxThreshold: real, classThreshold: real, labels: seq<string>)
    returns (boxes: seq<BoundingBox>, resultCrop: Crop)
    requires cols > 0 && rows > 0 && width > 0 && height > 0
    requires 0 <= num && num * (NumberOfClass + 5) <= |output|
    requires |labels| >= NumberOfClass
    ensures var c := Candidates(output, num, Crop(0, 0, cols, rows), boxThreshold, classThreshold);
      |boxes| == |c| && |boxes| <= num &&
      forall i :: 0 <= i < |c| ==>
        0 <= c[i].classId < NumberOfClass && c[i].score >= classThreshold && boxes[i] == c[i].(labelName := labels[c[i].classId])
    ensures resultCrop == Crop(0, 0, cols, rows)
  {
    var crop := ProcessCrop(cols, rows, width, height);
    var candidates := DecodeSequence(output, num, FastestDetFormat(boxThreshold, classThreshold), crop.w as real, crop.h as real);
    DecodedRecordsClasses(output, num, FastestDetFormat(boxThreshold, classThreshold), crop.w as real, crop.h as real);
    boxes := LabelBoxes(candidates, crop, labels);
    ResultCropProperties(crop, cols, rows);
    resultCrop := ResultCrop(crop, cols, rows);
  }
}

// Post-processing of the NanoDet detection engine: for each of the three strides a
// score tensor (80 per cell) and a regression tensor (4 distributions of 8 bins per
// cell) are decoded cell by cell; after NMS the boxes are clamped and moved by the
// crop origin.

module NanoDetDetection {
  import opened Common
  import opened Detections
  import opened CropResize
  import GridDecoding

  const StrideList: seq<int> := [32, 16, 8]
  const NumClass: nat := 80
  const RegMax: nat := 7

  /** (kRegMax + 1) * 4 = 32 regression values per cell. */
  const RegPerCell: nat := (RegMax + 1) * 4

  /** feature_num: the element count of the class tensor over 80, or, when that count
      is unavailable (zero), the number of stride-sized cells of the input. */
  function FeatureNum(elementNum: int, width: int, height: int, i: int): (n: int)
    requires elementNum >= 0 && width >= 0 && height >= 0 && 0 <= i < |StrideList|
    ensures n >= 0
    ensures elementNum / NumClass > 0 ==> n == elementNum / NumClass
    ensures elementNum / NumClass <= 0 ==> n == width * height / (StrideList[i] * StrideList[i])
  {
    MulNonNeg(width, height);
    if elementNum / NumClass <= 0 then width * height / (StrideList[i] * StrideList[i])
    else elementNum / NumClass
  }

  // ---- Cell coordinates ----

  /** The cell coordinates as written: grid_x = i % grid_w, grid_y = i / grid_h. */
  function GridCellAsWritten(i: int, gridW: int, gridH: int): (int, int)
    requires gridW > 0 && gridH > 0
  {
    (i % gridW, i / gridH)
  }

  /** The row-major cell coordinates of cell `i`: grid_y = i / grid_w. */
  function GridCell(i: int, gridW: int): (int, int)
    requires gridW > 0
  {
    (i % gridW, i / gridW)
  }

  /** Cell (x, y) of a `gridW`-wide grid has number y * gridW + x, and GridCell
      recovers (x, y) from that number. */
  lemma GridCellRoundTrip(x: int, y: int, gridW: int)
    requires gridW > 0 && 0 <= x < gridW && 0 <= y
    ensures GridCell(y * gridW + x, gridW) == (x, y)
  {
    DivModOf(y * gridW + x, y, x, gridW);
  }

  /** The two agree on square grids, such as those of the 320x320 input. */
  lemma GridCellAsWrittenOnSquare(i: int, grid: int)
    requires grid > 0
    ensures GridCellAsWritten(i, grid, grid) == GridCell(i, grid)
  {
  }

  /** On a grid that is not square the written row is wrong: a 20x10 grid (a 640x320
      input at stride 32) puts cell 20, the first cell of row 1, in row 2. */
  lemma GridCellAsWrittenWrongRow()
    ensures GridCell(20, 20) == (0, 1)
    ensures GridCellAsWritten(20, 20, 10) == (0, 2)
  {
    GridCellRoundTrip(0, 1, 20);
  }

  // ---- One cell ----

  /** The scores of cell `i`: score_list[i * 80 + c]. */
  function CellScores(scores: seq<real>, i: int): seq<real>
    requires 0 <= i && i * NumClass + NumClass <= |scores|
  {
    MulNonNeg(i, NumClass);
    scores[i * NumClass..i * NumClass + NumClass]
  }

  /** Distribution `k` of cell `i`: eight bins at idx * 32 + k * 8. */
  function Distribution(reg: seq<real>, i: int, k: int): seq<real>
    requires 0 <= i && i * RegPerCell + RegPerCell <= |reg| && 0 <= k < 4
  {
    MulNonNeg(i, RegPerCell);
    reg[i * RegPerCell + k * (RegMax + 1)..i * RegPerCell + k * (RegMax + 1) + (RegMax + 1)]
  }

  /** `DisPred2Bbox`: each side's distance is the expectation of its distribution
      (`meanBin` stands for the softmax-weighted sum of the bin indices), measured from
      the cell centre and scaled from grid to image pixels. */
  function DisPred2Bbox(reg: seq<real>, i: int, x: int, y: int, scaleW: real, scaleH: real,
                        meanBin: seq<real> -> real): (r: (int, int, int, int))
    requires 0 <= i && i * RegPerCell + RegPerCell <= |reg|
  {
    var ctX := x as real + 0.5;
    var ctY := y as real + 0.5;
    var ox := Trunc(GridDecoding.Scale(ctX - meanBin(Distribution(reg, i, 0)), scaleW));
    var oy := Trunc(GridDecoding.Scale(ctY - meanBin(Distribution(reg, i, 1)), scaleH));
    (ox, oy,
     Trunc(GridDecoding.Scale(ctX + meanBin(Distribution(reg, i, 2)), scaleW) - ox as real),
     Trunc(GridDecoding.Scale(ctY + meanBin(Distribution(reg, i, 3)), scaleH) - oy as real))
  }

  /** The box of cell `i`, if its best class score is strictly above the threshold. */
  function DecodeCell(scores: seq<real>, reg: seq<real>, i: int, threshold: real, gridW: int, gridH: int,
                      scaleW: real, scaleH: real, labels: seq<string>, meanBin: seq<real> -> real)
    : Option<BoundingBox>
    requires gridW > 0 && gridH > 0 && 0 <= i && i * NumClass + NumClass <= |scores| && i * RegPerCell + RegPerCell <= |reg|
    requires |labels| >= NumClass
  {
    var best := StrictMaxOf(CellScores(scores, i));
    if best.score > threshold then
      var (gx, gy) := GridCellAsWritten(i, gridW, gridH);
      var (ox, oy, bw, bh) := DisPred2Bbox(reg, i, gx, gy, scaleW, scaleH, meanBin);
      Some(BoundingBox(best.index, labels[best.index], best.score, ox, oy, bw, bh))
    else None
  }

  /** A cell yields a box exactly when its best score passes the threshold; the box
      carries the first best class, that class's label and its score. */
  lemma DecodeCellMeaning(scores: seq<real>, reg: seq<real>, i: int, threshold: real, gridW: int, gridH: int,
                          scaleW: real, scaleH: real, labels: seq<string>, meanBin: seq<real> -> real)
    requires gridW > 0 && gridH > 0 && 0 <= i && i * NumClass + NumClass <= |scores| && i * RegPerCell + RegPerCell <= |reg|
    requires |labels| >= NumClass
    ensures var r := DecodeCell(scores, reg, i, threshold, gridW, gridH, scaleW, scaleH, labels, meanBin);
      var best := StrictMaxOf(CellScores(scores, i));
      (r.Some? <==> best.score > threshold) &&
      (r.Some? ==>
        (r.value.classId == best.index && r.value.score == best.score &&
         0 <= r.value.classId < NumClass && r.value.labelName == labels[r.value.classId]))
  {
  }

  /** The boxes of cells 0 .. n-1, in cell order. */
  function DecodedCells(scores: seq<real>, reg: seq<real>, n: nat, threshold: real, gridW: int, gridH: int,
                        scaleW: real, scaleH: real, labels: seq<string>, meanBin: seq<real> -> real)
    : (boxes: seq<BoundingBox>)
    requires gridW > 0 && gridH > 0 && n * NumClass <= |scores| && n * RegPerCell <= |reg| && |labels| >= NumClass
    ensures |boxes| <= n
  {
    if n == 0 then []
    else
      GridDecoding.NextRecordFits(n - 1, n, NumClass);
      GridDecoding.NextRecordFits(n - 1, n, RegPerCell);
      DecodedCells(scores, reg, n - 1, threshold, gridW, gridH, scaleW, scaleH, labels, meanBin) +
      GridDecoding.Boxes(DecodeCell(scores, reg, n - 1, threshold, gridW, gridH, scaleW, scaleH, labels, meanBin))
  }

  /** Every decoded box passed the threshold and is one of the 80 classes. */
  lemma {:induction false} DecodedCellsClasses(scores: seq<real>, reg: seq<real>, n: nat, threshold: real, gridW: int, gridH: int,
                                               scaleW: real, scaleH: real, labels: seq<string>, meanBin: seq<real> -> real)
    requires gridW > 0 && gridH > 0 && n * NumClass <= |scores| && n * RegPerCell <= |reg| && |labels| >= NumClass
    ensures forall b :: b in DecodedCells(scores, reg, n, threshold, gridW, gridH, scaleW, scaleH, labels, meanBin) ==>
      b.score > threshold && 0 <= b.classId < NumClass && b.labelName == labels[b.classId]
  {
    if n > 0 {
      GridDecoding.NextRecordFits(n - 1, n, NumClass);
      GridDecoding.NextRecordFits(n - 1, n, RegPerCell);
      DecodedCellsClasses(scores, reg, n - 1, threshold, gridW, gridH, scaleW, scaleH, labels, meanBin);
      DecodeCellMeaning(scores, reg, n - 1, threshold, gridW, gridH, scaleW, scaleH, labels, meanBin);
    }
  }

  /** One more cell appends that cell's box, if any. */
  lemma DecodedCellsStep(scores: seq<real>, reg: seq<real>, i: nat, threshold: real, gridW: int, gridH: int,
                         scaleW: real, scaleH: real, labels: seq<string>, meanBin: seq<real> -> real)
    requires gridW > 0 && gridH > 0 && i * NumClass + NumClass <= |scores| && i * RegPerCell + RegPerCell <= |reg|
    requires |labels| >= NumClass
    ensures (i + 1) * NumClass <= |scores| && (i + 1) * RegPerCell <= |reg|
    ensures DecodedCells(scores, reg, i + 1, threshold, gridW, gridH, scaleW, scaleH, labels, meanBin) ==
      DecodedCells(scores, reg, i, threshold, gridW, gridH, scaleW, scaleH, labels, meanBin) +
      GridDecoding.Boxes(DecodeCell(scores, reg, i, threshold, gridW, gridH, scaleW, scaleH, labels, meanBin))
  {
    GridDecoding.SumStep(i, NumClass);
    GridDecoding.SumStep(i, RegPerCell);
  }

  /** The body of `DecodeInfer`'s loop for cell `i`: the class scan, then the gate. */
  method DecodeOneCell(scores: seq<real>, reg: seq<real>, i: int, threshold: real, gridW: int, gridH: int,
                       scaleW: real, scaleH: real, labels: seq<string>, meanBin: seq<real> -> real)
    returns (r: Option<BoundingBox>)
    requires gridW > 0 && gridH > 0 && 0 <= i && i * NumClass + NumClass <= |scores| && i * RegPerCell + RegPerCell <= |reg|
    requires |labels| >= NumClass
    ensures r == DecodeCell(scores, reg, i, threshold, gridW, gridH, scaleW, scaleH, labels, meanBin)
  {
    MulNonNeg(i, NumClass);
    var best := ScanStrictMax(scores, i * NumClass, NumClass);
    r := None;
    if best.score > threshold {
      var (gx, gy) := GridCellAsWritten(i, gridW, gridH);
      var (ox, oy, bw, bh) := DisPred2Bbox(reg, i, gx, gy, scaleW, scaleH, meanBin);
      r := Some(BoundingBox(best.index, labels[best.index], best.score, ox, oy, bw, bh));
    }
  }

  /** `DecodeInfer`: every cell of the grid, the class scan, the strict threshold. */
  method DecodeInfer(scores: seq<real>, reg: seq<real>, threshold: real, gridW: int, gridH: int,
                     scaleW: real, scaleH: real, labels: seq<string>, meanBin: seq<real> -> real)
    returns (boxes: seq<BoundingBox>)
    requires gridW > 0 && gridH > 0 && |labels| >= NumClass
    requires gridW * gridH * NumClass <= |scores| && gridW * gridH * RegPerCell <= |reg|
    ensures 0 <= gridW * gridH
    ensures boxes == DecodedCells(scores, reg, gridW * gridH, threshold, gridW, gridH, scaleW, scaleH, labels, meanBin)
  {
    MulNonNeg(gridW, gridH);
    var n := gridW * gridH;
    boxes := [];
    var i := 0;
    while i < n
      invariant 0 <= i <= n
      invariant i * NumClass <= |scores| && i * RegPerCell <= |reg|
      invariant boxes == DecodedCells(scores, reg, i, threshold, gridW, gridH, scaleW, scaleH, labels, meanBin)
    {
      boxes := DecodeNextCell(scores, reg, boxes, i, n, threshold, gridW, gridH, scaleW, scaleH, labels, meanBin);
      i := i + 1;
    }
  }

  /** One pass of `DecodeInfer`'s loop: cell `i`'s box, if any, goes after those of the
      cells before it. */
  method DecodeNextCell(scores: seq<real>, reg: seq<real>, boxes: seq<BoundingBox>, i: nat, n: int, threshold: real,
                        gridW: int, gridH: int, scaleW: real, scaleH: real, labels: seq<string>, meanBin: seq<real> -> real)
    returns (out: seq<BoundingBox>)
    requires gridW > 0 && gridH > 0 && i < n && n * NumClass <= |scores| && n * RegPerCell <= |reg| && |labels| >= NumClass
    requires i * NumClass <= |scores| && i * RegPerCell <= |reg|
    requires boxes == DecodedCells(scores, reg, i, threshold, gridW, gridH, scaleW, scaleH, labels, meanBin)
    ensures (i + 1) * NumClass <= |scores| && (i + 1) * RegPerCell <= |reg|
    ensures out == DecodedCells(scores, reg, i + 1, threshold, gridW, gridH, scaleW, scaleH, labels, meanBin)
  {
    GridDecoding.NextRecordFits(i, n, NumClass);
    GridDecoding.NextRecordFits(i, n, RegPerCell);
    var r := DecodeOneCell(scores, reg, i, threshold, gridW, gridH, scaleW, scaleH, labels, meanBin);
    DecodedCellsStep(scores, reg, i, threshold, gridW, gridH, scaleW, scaleH, labels, meanBin);
    out := boxes;
    if r.Some? {
      out := out + [r.value];
    }
  }

  // ---- After NMS ----

  /** The adjust loop over the NMS output: x = max(x, 0) + crop_x, then the width is
      cut at the image border measured from the new x. */
  function Clamped(b: BoundingBox, crop: Crop, cols: int, rows: int): BoundingBox {
    var x := Max(b.x, 0) + crop.x;
    var y := Max(b.y, 0) + crop.y;
    b.(x := x, y := y, w := Min(b.w, cols - x), h := Min(b.h, rows - y))
  }

  /** A clamped box starts at or after the crop origin and does not reach past the
      image's right or bottom border; class, label and score are kept. */
  lemma ClampedInImage(b: BoundingBox, crop: Crop, cols: int, rows: int)
    ensures var r := Clamped(b, crop, cols, rows);
      r.x >= crop.x && r.y >= crop.y && r.x + r.w <= cols && r.y + r.h <= rows &&
      r.w <= b.w && r.h <= b.h &&
      r.classId == b.classId && r.labelName == b.labelName && r.score == b.score
  {
  }

  method AdjustAfterNms(kept: seq<BoundingBox>, crop: Crop, cols: int, rows: int) returns (out: seq<BoundingBox>)
    ensures |out| == |kept|
    ensures forall i :: 0 <= i < |kept| ==> out[i] == Clamped(kept[i], crop, cols, rows)
  {
    out := kept;
    for i := 0 to |kept|
      invariant |out| == |kept|
      invariant forall k :: 0 <= k < i ==> out[k] == Clamped(kept[k], crop, cols, rows)
      invariant forall k :: i <= k < |kept| ==> out[k] == kept[k]
    {
      out := out[i := Clamped(out[i], crop, cols, rows)];
    }
  }

  // ---- The three strides ----

  /** What each stride needs: a grid at least one cell wide and high, at least as many
      features as cells, and tensors holding feature_num * 32 and feature_num * 80 values. */
  predicate StridesFit(outputs: seq<seq<real>>, elementNums: seq<int>, width: int, height: int) {
    width >= 0 && height >= 0 && |outputs| >= 2 * |StrideList| && |elementNums| >= 2 * |StrideList| &&
    forall i :: 0 <= i < |StrideList| ==>
      elementNums[2 * i + 1] >= 0 &&
      var n := FeatureNum(elementNums[2 * i + 1], width, height, i);
      var gridW := width / StrideList[i];
      var gridH := height / StrideList[i];
      gridW > 0 && gridH > 0 && gridW * gridH <= n &&
      n * RegPerCell <= |outputs[2 * i]| && n * NumClass <= |outputs[2 * i + 1]|
  }

  /** The candidates of the first `s` strides: the boxes of every cell of each grid,
      read from that stride's buffers and scaled by crop size over grid size. */
  function Candidates(outputs: seq<seq<real>>, elementNums: seq<int>, width: int, height: int, crop: Crop,
                      threshold: real, labels: seq<string>, meanBin: seq<real> -> real, s: int): seq<BoundingBox>
    requires StridesFit(outputs, elementNums, width, height) && |labels| >= NumClass && 0 <= s <= |StrideList|
  {
    if s == 0 then []
    else
      var i := s - 1;
      var n := FeatureNum(elementNums[2 * i + 1], width, height, i);
      var gridW := width / StrideList[i];
      var gridH := height / StrideList[i];
      MulMono(gridW * gridH, n, RegPerCell);
      MulMono(gridW * gridH, n, NumClass);
      Candidates(outputs, elementNums, width, height, crop, threshold, labels, meanBin, s - 1) +
      DecodedCells(outputs[2 * i + 1][..n * NumClass], outputs[2 * i][..n * RegPerCell], gridW * gridH,
        threshold, gridW, gridH, crop.w as real / gridW as real, crop.h as real / gridH as real, labels, meanBin)
  }

  /** The stride loop of `Process`: feature counts, buffer copies, `DecodeInfer`. */
  method DecodeStrides(outputs: seq<seq<real>>, elementNums: seq<int>, width: int, height: int, crop: Crop,
                       threshold: real, labels: seq<string>, meanBin: seq<real> -> real)
    returns (boxes: seq<BoundingBox>)
    requires StridesFit(outputs, elementNums, width, height) && |labels| >= NumClass
    ensures boxes == Candidates(outputs, elementNums, width, height, crop, threshold, labels, meanBin, |StrideList|)
  {
    boxes := [];
    for i := 0 to |StrideList|
      invariant boxes == Candidates(outputs, elementNums, width, height, crop, threshold, labels, meanBin, i)
    {
      var strideBoxes := DecodeStride(outputs, elementNums, width, height, crop, threshold, labels, meanBin, i);
      boxes := boxes + strideBoxes;
    }
  }

  /** One stride of the loop: its feature count, its two buffers cut to that count,
      its grid and `DecodeInfer`; the boxes are that stride's part of the candidates. */
  method DecodeStride(outputs: seq<seq<real>>, elementNums: seq<int>, width: int, height: int, crop: Crop,
                      threshold: real, labels: seq<string>, meanBin: seq<real> -> real, i: int)
    returns (strideBoxes: seq<BoundingBox>)
    requires StridesFit(outputs, elementNums, width, height) && |labels| >= NumClass && 0 <= i < |StrideList|
    ensures Candidates(outputs, elementNums, width, height, crop, threshold, labels, meanBin, i + 1) ==
      Candidates(outputs, elementNums, width, height, crop, threshold, labels, meanBin, i) + strideBoxes
  {
    var n := FeatureNum(elementNums[2 * i + 1], width, height, i);
    var gridW := width / StrideList[i];
    var gridH := height / StrideList[i];
    MulMono(gridW * gridH, n, RegPerCell);
    MulMono(gridW * gridH, n, NumClass);
    var reg := outputs[2 * i][..n * RegPerCell];
    var scores := outputs[2 * i + 1][..n * NumClass];
    strideBoxes := DecodeInfer(scores, reg, threshold, gridW, gridH,
      crop.w as real / gridW as real, crop.h as real / gridH as real, labels, meanBin);
  }

  /** The crop of `Process` (Cut mode from the whole image) and the crop it reports,
      which is the same rectangle since it lies inside the image. */
  lemma ProcessCropReported(cols: int, rows: int, width: int, height: int)
    requires cols > 0 && rows > 0 && width > 0 && height > 0
    ensures CropResizeCvt(Crop(0, 0, cols, rows), width, height, Cut) == CentreCrop(cols, rows, width, height)
    ensures ResultCrop(CentreCrop(cols, rows, width, height), cols, rows) == CentreCrop(cols, rows, width, height)
  {
    ResultCropProperties(CentreCrop(cols, rows, width, height), cols, rows);
  }
}

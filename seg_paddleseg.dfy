// Post-processing of the PaddleSeg (Cityscapes) segmentation engine: one map per
// class holding the class score divided by 20 and clamped to [0, 1], and an argmax
// map whose running maximum starts at 0.

module PaddleSegSegmentation {
  import opened Common
  import opened Detections

  /** OUTPUT_CHANNEL: the 19 Cityscapes classes, interleaved per pixel (NHWC). */
  const OutputChannel: nat := 19

  /** The scores of pixel `p` = y * W + x: OutputChannel values from p * 19. */
  function PixelScores(values: seq<real>, p: int): seq<real>
    requires 0 <= p && 19 * p + 19 <= |values|
  {
    values[19 * p .. 19 * p + 19]
  }

  /** The argmax label of pixel `p`: the strict running maximum from 0 over its scores. */
  function PixelClass(values: seq<real>, p: int): int
    requires 0 <= p && 19 * p + 19 <= |values|
  {
    StrictMaxOf(PixelScores(values, p)).index
  }

  /** `val / 20` clamped with std::min(1, std::max(0, val)). */
  function ClassValue(v: real): (r: real)
    ensures 0.0 <= r <= 1.0
    ensures 0.0 <= v / 20.0 <= 1.0 ==> r == v / 20.0
  {
    RMin(1.0, RMax(0.0, v / 20.0))
  }

  /** The clamp keeps the order of the scores, and sends every score at or below 0 to 0. */
  lemma ClassValueMonotone(a: real, b: real)
    requires a <= b
    ensures ClassValue(a) <= ClassValue(b)
    ensures a <= 0.0 ==> ClassValue(a) == 0.0
  {
  }

  /** The map of class `c`: its clamped value at every pixel, in row-major order. */
  method ClassMap(values: seq<real>, width: int, height: int, c: int) returns (mat: seq<real>)
    requires width > 0 && height > 0 && 0 <= c < OutputChannel && 19 * (width * height) <= |values|
    ensures |mat| == width * height
    ensures forall p :: 0 <= p < width * height ==> mat[p] == ClassValue(PixelScores(values, p)[c])
  {
    mat := [];
    for y := 0 to height
      invariant |mat| == y * width && |mat| <= width * height
      invariant forall p :: 0 <= p < |mat| ==> mat[p] == ClassValue(PixelScores(values, p)[c])
    {
      for x := 0 to width
        invariant |mat| == y * width + x && |mat| <= width * height
        invariant forall p :: 0 <= p < |mat| ==> mat[p] == ClassValue(PixelScores(values, p)[c])
      {
        RowMajor(x, y, width, height);
        var p := y * width + x;
        assert y * width * 19 + x * 19 + c == 19 * p + c;
        var v := values[y * width * 19 + x * 19 + c];
        assert v == PixelScores(values, p)[c];
        mat := mat + [ClassValue(v)];
      }
      assert y * width + width == (y + 1) * width;
    }
    assert height * width == width * height;
  }

  /** The score-map loop: 19 maps of the image's size. */
  method ClassMaps(values: seq<real>, width: int, height: int) returns (maps: seq<seq<real>>)
    requires width > 0 && height > 0 && 19 * (width * height) <= |values|
    ensures |maps| == OutputChannel
    ensures forall c :: 0 <= c < OutputChannel ==>
      |maps[c]| == width * height &&
      forall p :: 0 <= p < width * height ==> maps[c][p] == ClassValue(PixelScores(values, p)[c])
  {
    maps := [];
    for c := 0 to OutputChannel
      invariant |maps| == c
      invariant forall k :: 0 <= k < c ==>
        |maps[k]| == width * height &&
        forall p :: 0 <= p < width * height ==> maps[k][p] == ClassValue(PixelScores(values, p)[k])
    {
      var mat := ClassMap(values, width, height, c);
      maps := maps + [mat];
    }
  }

  /** The argmax loop: per pixel, the strict running maximum from 0 over the 19 scores. */
  method ArgMax(values: seq<real>, width: int, height: int) returns (matMax: seq<int>)
    requires width > 0 && height > 0 && 19 * (width * height) <= |values|
    ensures |matMax| == width * height
    ensures forall p :: 0 <= p < width * height ==>
      matMax[p] == PixelClass(values, p)
  {
    matMax := [];
    for y := 0 to height
      invariant |matMax| == y * width && |matMax| <= width * height
      invariant forall p :: 0 <= p < |matMax| ==>
        matMax[p] == PixelClass(values, p)
    {
      for x := 0 to width
        invariant |matMax| == y * width + x && |matMax| <= width * height
        invariant forall p :: 0 <= p < |matMax| ==>
          matMax[p] == PixelClass(values, p)
      {
        matMax := AppendPixel(values, width, height, x, y, matMax);
      }
      assert y * width + width == (y + 1) * width;
    }
    assert height * width == width * height;
  }

  /** The label of pixel (x, y) pushed after those of the pixels before it. */
  method AppendPixel(values: seq<real>, width: int, height: int, x: int, y: int, matMax: seq<int>)
    returns (out: seq<int>)
    requires 0 <= x < width && 0 <= y < height && 19 * (width * height) <= |values|
    requires |matMax| == y * width + x
    requires forall p :: 0 <= p < |matMax| ==> 19 * p + 19 <= |values| && matMax[p] == PixelClass(values, p)
    ensures |out| == y * width + x + 1 && |out| <= width * height
    ensures forall p :: 0 <= p < |out| ==> 19 * p + 19 <= |values| && out[p] == PixelClass(values, p)
  {
    var best := PixelArgMax(values, width, height, x, y);
    out := matMax + [best];
  }

  /** The inner loop over the 19 classes of pixel (x, y). */
  method PixelArgMax(values: seq<real>, width: int, height: int, x: int, y: int) returns (maxC: int)
    requires 0 <= x < width && 0 <= y < height && 19 * (width * height) <= |values|
    ensures 0 <= y * width + x < width * height
    ensures maxC == PixelClass(values, y * width + x)
  {
    RowMajor(x, y, width, height);
    var p := y * width + x;
    var base := y * width * 19 + x * 19;
    assert base == 19 * p;
    var best := ScanStrictMax(values, base, OutputChannel);
    maxC := best.index;
  }

  /** Every label fits the 19 classes, and the argmax class has the largest clamped
      map value of its pixel: where some score is positive it is the first maximal
      score, and where none is, every map holds 0 there and the label is class 0. */
  lemma ArgMaxHasLargestMap(values: seq<real>, p: int)
    requires 0 <= p && 19 * p + 19 <= |values|
    ensures var row := PixelScores(values, p);
      var c := PixelClass(values, p);
      0 <= c < OutputChannel &&
      (forall k :: 0 <= k < OutputChannel ==> ClassValue(row[k]) <= ClassValue(row[c])) &&
      ((forall k :: 0 <= k < OutputChannel ==> row[k] <= 0.0) ==>
        (c == 0 && forall k :: 0 <= k < OutputChannel ==> ClassValue(row[k]) == 0.0)) &&
      ((exists k :: 0 <= k < OutputChannel && row[k] > 0.0) ==>
        (forall k :: 0 <= k < OutputChannel ==> row[k] <= row[c]) && (forall k :: 0 <= k < c ==> row[k] < row[c]))
  {
    var row := PixelScores(values, p);
    var best := StrictMaxOf(row);
    StrictMaxIndexInRange(row);
    forall k | 0 <= k < OutputChannel
      ensures ClassValue(row[k]) <= ClassValue(row[best.index])
    {
      if best.score > 0.0 {
        ClassValueMonotone(row[k], row[best.index]);
      } else {
        ClassValueMonotone(row[k], 0.0);
        ClassValueMonotone(row[best.index], 0.0);
      }
    }
    if forall k :: 0 <= k < OutputChannel ==> row[k] <= 0.0 {
      forall k | 0 <= k < OutputChannel
        ensures ClassValue(row[k]) == 0.0
      {
        ClassValueMonotone(row[k], 0.0);
      }
    }
  }
}

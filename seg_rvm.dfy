// Post-processing of the segmentation engine of the robust-video-matting project: the
// output tensor holds 19 class scores per pixel (NHWC); every pixel's scores go through
// a softmax into 19 score maps, and the label map takes std::max_element of the raw
// scores.

module RvmSegmentation {
  import opened Common
  import opened Detections

  /** OUTPUT_CHANNEL. */
  const OutputChannel: nat := 19

  /** The value list: the first H * W * 19 floats of the output tensor. */
  function ValueList(data: seq<real>, width: int, height: int): (values: seq<real>)
    requires width >= 0 && height >= 0 && 19 * (width * height) <= |data|
    ensures |values| == height * width * OutputChannel
    ensures forall i :: 0 <= i < |values| ==> values[i] == data[i]
  {
    MulNonNeg(width, height);
    assert height * width * 19 == 19 * (width * height);
    data[.. 19 * (width * height)]
  }

  /** The 19 raw scores of pixel `p` = y * W + x, read from offset p * 19. */
  function PixelScores(values: seq<real>, p: int): seq<real>
    requires 0 <= p && 19 * p + 19 <= |values|
  {
    values[19 * p .. 19 * p + 19]
  }

  /** The softmax vector of pixel `p`: entry c is output c of the softmax over the
      pixel's 19 scores. */
  function ScoreList(values: seq<real>, p: int, softmax: (seq<real>, int) -> real): (scores: seq<real>)
    requires 0 <= p && 19 * p + 19 <= |values|
    ensures |scores| == OutputChannel
  {
    seq(19, c => softmax(PixelScores(values, p), c))
  }

  /** The label of pixel `p`. */
  function PixelClass(values: seq<real>, p: int): int
    requires 0 <= p && 19 * p + 19 <= |values|
  {
    MaxElementOf(PixelScores(values, p))
  }

  /** The label fits the 19 classes and is the first position holding the largest score. */
  lemma PixelClassMeaning(values: seq<real>, p: int)
    requires 0 <= p && 19 * p + 19 <= |values|
    ensures var row := PixelScores(values, p);
      var c := PixelClass(values, p);
      0 <= c < OutputChannel &&
      (forall k :: 0 <= k < OutputChannel ==> row[k] <= row[c]) &&
      (forall k :: 0 <= k < c ==> row[k] < row[c])
  {
  }

  /** With a softmax that keeps the order of the scores of a pixel, the label's score
      map holds the largest value of that pixel among the 19 maps. */
  lemma PixelClassHasLargestScore(values: seq<real>, p: int, softmax: (seq<real>, int) -> real)
    requires 0 <= p && 19 * p + 19 <= |values|
    requires forall i, j :: 0 <= i < 19 && 0 <= j < 19 && PixelScores(values, p)[i] <= PixelScores(values, p)[j] ==>
      softmax(PixelScores(values, p), i) <= softmax(PixelScores(values, p), j)
    ensures var c := PixelClass(values, p);
      0 <= c < OutputChannel && forall k :: 0 <= k < OutputChannel ==> ScoreList(values, p, softmax)[k] <= ScoreList(values, p, softmax)[c]
  {
    var row := PixelScores(values, p);
    var c := PixelClass(values, p);
    forall k | 0 <= k < OutputChannel
      ensures ScoreList(values, p, softmax)[k] <= ScoreList(values, p, softmax)[c]
    {
      assert row[k] <= row[c];
    }
  }

  /** The 19 maps of H * W zeros the score loop starts from. */
  function ZeroMaps(size: nat): (maps: seq<seq<real>>)
    ensures |maps| == OutputChannel
    ensures forall c :: 0 <= c < OutputChannel ==> |maps[c]| == size && forall p :: 0 <= p < size ==> maps[c][p] == 0.0
  {
    seq(19, _ => seq(size, _ => 0.0))
  }

  /** What the score loop has written after the first `n` pixels: the softmax values
      before `n`, zeros after it. */
  predicate ScoresWritten(maps: seq<seq<real>>, values: seq<real>, size: int, n: int, softmax: (seq<real>, int) -> real)
    requires 0 <= n <= size && 19 * size <= |values|
  {
    |maps| == OutputChannel &&
    forall c :: 0 <= c < OutputChannel ==>
      |maps[c]| == size &&
      (forall p :: 0 <= p < n ==> maps[c][p] == ScoreList(values, p, softmax)[c]) &&
      (forall p :: n <= p < size ==> maps[c][p] == 0.0)
  }

  /** The channel loop of pixel `p`: writes score c of that pixel into map c. */
  method WritePixel(maps: seq<seq<real>>, values: seq<real>, size: int, p: int, softmax: (seq<real>, int) -> real)
    returns (out: seq<seq<real>>)
    requires 0 <= p < size && 19 * size <= |values|
    requires ScoresWritten(maps, values, size, p, softmax)
    ensures ScoresWritten(out, values, size, p + 1, softmax)
  {
    var scoreList := ScoreList(values, p, softmax);
    out := maps;
    for c := 0 to OutputChannel
      invariant |out| == OutputChannel
      invariant forall k :: 0 <= k < c ==> out[k] == maps[k][p := scoreList[k]]
      invariant forall k :: c <= k < OutputChannel ==> out[k] == maps[k]
    {
      out := out[c := out[c][p := scoreList[c]]];
    }
  }

  /** The score loop: rows, then pixels; map c holds score c of every pixel. */
  method ScoreMaps(values: seq<real>, width: int, height: int, softmax: (seq<real>, int) -> real)
    returns (maps: seq<seq<real>>)
    requires width > 0 && height > 0 && 19 * (width * height) <= |values|
    ensures |maps| == OutputChannel
    ensures forall c :: 0 <= c < OutputChannel ==>
      |maps[c]| == width * height &&
      forall p :: 0 <= p < width * height ==> maps[c][p] == ScoreList(values, p, softmax)[c]
  {
    var size := width * height;
    maps := ZeroMaps(size);
    for y := 0 to height
      invariant y * width <= size
      invariant ScoresWritten(maps, values, size, y * width, softmax)
    {
      for x := 0 to width
        invariant y * width + x <= size
        invariant ScoresWritten(maps, values, size, y * width + x, softmax)
      {
        RowMajor(x, y, width, height);
        var p := y * width + x;
        assert y * width * 19 + x * 19 == 19 * p;
        maps := WritePixel(maps, values, size, p, softmax);
      }
      assert y * width + width == (y + 1) * width;
      MulMono(y + 1, height, width);
      assert height * width == size;
    }
    assert height * width == size;
  }

  /** One pixel of the argmax loop: its label appended after those of the pixels before it. */
  method AppendLabel(values: seq<real>, matMax: seq<int>, p: int) returns (out: seq<int>)
    requires 0 <= p == |matMax| && 19 * p + 19 <= |values|
    requires forall q :: 0 <= q < p ==> matMax[q] == PixelClass(values, q)
    ensures |out| == p + 1
    ensures forall q :: 0 <= q <= p ==> out[q] == PixelClass(values, q)
  {
    var maxC := MaxElementOf(values[19 * p .. 19 * p + 19]);
    out := matMax + [maxC];
  }

  /** A pixel inside the image has its 19 scores inside the tensor. */
  lemma PixelFits(p: int, size: int)
    requires 0 <= p < size
    ensures 19 * p + 19 <= 19 * size
  {
  }

  /** The argmax loop: rows, then pixels; every pixel gets its label. */
  method ArgMax(values: seq<real>, width: int, height: int) returns (matMax: seq<int>)
    requires width > 0 && height > 0 && 19 * (width * height) <= |values|
    ensures |matMax| == width * height
    ensures forall p :: 0 <= p < width * height ==> matMax[p] == PixelClass(values, p)
  {
    var size := width * height;
    matMax := [];
    for y := 0 to height
      invariant |matMax| == y * width && |matMax| <= size
      invariant forall p :: 0 <= p < |matMax| ==> matMax[p] == PixelClass(values, p)
    {
      for x := 0 to width
        invariant |matMax| == y * width + x && |matMax| <= size
        invariant forall p :: 0 <= p < |matMax| ==> matMax[p] == PixelClass(values, p)
      {
        RowMajor(x, y, width, height);
        var p := y * width + x;
        PixelFits(p, size);
        matMax := AppendLabel(values, matMax, p);
      }
      assert y * width + width == (y + 1) * width;
    }
  }
}

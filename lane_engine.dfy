// Post-processing of the LaneNet lane detection engine: the binary segmentation
// output becomes a 512 x 256 byte mask, the pixels set in it are gathered with their
// four-float embeddings, the embeddings are normalised by their mean and standard
// deviation, and DBSCAN clusters them into lanes.  The crop is the bottom strip of
// the image whose height is half its width.

module LaneEngine {
  import opened Common
  import opened CropResize

  /** kNumWidth and kNumHeight: the model's mask size. */
  const NumWidth: int := 512
  const NumHeight: int := 256

  // ---- Crop ----

  /** The crop of `Process`: the full width, half of it as height, at the bottom. */
  function ProcessCrop(cols: int, rows: int): (c: Crop)
    requires cols >= 0
  {
    Crop(0, rows - cols / 2, cols, cols / 2)
  }

  /** The crop is the bottom strip of height cols / 2.  It lies inside the image
      exactly when the image is at least that tall; otherwise its origin is above
      the image and the region CropResizeCvt takes of the frame does not exist.
      When it does, the crop the engine reports is the strip itself. */
  lemma ProcessCropBottom(cols: int, rows: int)
    requires cols > 0 && rows > 0
    ensures var c := ProcessCrop(cols, rows);
      c.x == 0 && c.w == cols && c.h == cols / 2 && c.y + c.h == rows
    ensures InImage(ProcessCrop(cols, rows), cols, rows) <==> rows >= cols / 2
    ensures rows < cols / 2 ==> ProcessCrop(cols, rows).y < 0
    ensures rows >= cols / 2 ==> ResultCrop(ProcessCrop(cols, rows), cols, rows) == ProcessCrop(cols, rows)
  {
  }

  // ---- Binary mask ----

  /** `output_binary[i] * 255` stored into a uint8: the product modulo 256. */
  function BinaryByte(v: int): (b: int)
    ensures 0 <= b < 256
  {
    (v * 255) % 256
  }

  /** A class of 1 becomes 255 and a class of 0 stays 0; in general the byte is 255
      exactly when the class is 1 modulo 256. */
  lemma BinaryByteMeaning(v: int)
    ensures BinaryByte(0) == 0 && BinaryByte(1) == 255
    ensures BinaryByte(v) == 255 <==> v % 256 == 1
  {
    var q := v / 256;
    var r := v % 256;
    assert v == 256 * q + r;
    if r == 0 {
      DivModOf(v * 255, 255 * q, 0, 256);
    } else {
      assert v * 255 == (255 * q + r - 1) * 256 + (256 - r);
      DivModOf(v * 255, 255 * q + r - 1, 256 - r, 256);
    }
  }

  /** The copy loop into image_binary. */
  method BinaryImage(outputBinary: seq<int>) returns (image: seq<int>)
    ensures |image| == |outputBinary|
    ensures forall i :: 0 <= i < |image| ==> image[i] == BinaryByte(outputBinary[i])
  {
    image := [];
    for i := 0 to |outputBinary|
      invariant |image| == i
      invariant forall k :: 0 <= k < i ==> image[k] == BinaryByte(outputBinary[k])
    {
      image := image + [BinaryByte(outputBinary[i])];
    }
  }

  // ---- Gathering ----

  /** A `cv::Point`: column, then row. */
  datatype Point = Point(x: int, y: int)

  /** CLASSIFY_FLAGS of a DBSCAN sample; the gather loop sets NOT_CALSSIFIED, the
      other flags belong to the DBSCAN header, which is not part of this model. */
  datatype ClassifyFlag = NotClassified

  /** A `DBSCAMSample<float>`: its feature vector and flag. */
  datatype Sample = Sample(features: seq<real>, flag: ClassifyFlag)

  /** The row-major indices below `n` of the pixels of the mask equal to 255, in
      increasing order. */
  function Hits(mask: seq<int>, n: int): seq<int>
    requires 0 <= n <= |mask|
  {
    if n == 0 then []
    else Hits(mask, n - 1) + (if mask[n - 1] == 255 then [n - 1] else [])
  }

  /** A pixel index is gathered exactly when it is below `n` and set to 255, and the
      indices come in strictly increasing (row-major) order. */
  lemma {:induction false} HitsMembers(mask: seq<int>, n: int)
    requires 0 <= n <= |mask|
    ensures forall p :: p in Hits(mask, n) <==> 0 <= p < n && mask[p] == 255
    ensures forall i :: 0 <= i < |Hits(mask, n)| ==> 0 <= Hits(mask, n)[i] < n && mask[Hits(mask, n)[i]] == 255
    ensures forall i, j :: 0 <= i < j < |Hits(mask, n)| ==> Hits(mask, n)[i] < Hits(mask, n)[j]
  {
    if n > 0 {
      HitsMembers(mask, n - 1);
      var prev := Hits(mask, n - 1);
      assert forall i :: 0 <= i < |prev| ==> prev[i] < n - 1;
    }
  }

  /** Pixel index p of the 512-wide mask as a point (column, row). */
  function PointOf(p: int): Point {
    Point(p % 512, p / 512)
  }

  /** The four embedding floats of pixel p (CV_32FC4, row-major). */
  function FeatureAt(embedding: seq<real>, p: int): seq<real>
    requires 0 <= p && 4 * p + 4 <= |embedding|
  {
    embedding[4 * p .. 4 * p + 4]
  }

  /** What the gather loop has produced after the first `n` pixels. */
  predicate GatheredUpTo(mask: seq<int>, embedding: seq<real>, n: int, coords: seq<Point>, samples: seq<Sample>)
    requires 0 <= n <= |mask| && 4 * |mask| <= |embedding|
  {
    var hits := Hits(mask, n);
    HitsMembers(mask, n);
    |coords| == |hits| && |samples| == |hits| &&
    forall i :: 0 <= i < |hits| ==>
      coords[i] == PointOf(hits[i]) && samples[i] == Sample(FeatureAt(embedding, hits[i]), NotClassified)
  }

  /** One pixel of the gather loop: a set pixel appends its point and its four
      features, copied one by one; any other pixel appends nothing. */
  method GatherPixel(mask: seq<int>, embedding: seq<real>, col: int, row: int,
                     coords: seq<Point>, samples: seq<Sample>)
    returns (coordsOut: seq<Point>, samplesOut: seq<Sample>)
    requires |mask| == 131072 && 4 * |mask| <= |embedding|
    requires 0 <= col < 512 && 0 <= row < 256
    requires GatheredUpTo(mask, embedding, row * 512 + col, coords, samples)
    ensures GatheredUpTo(mask, embedding, row * 512 + col + 1, coordsOut, samplesOut)
  {
    RowMajor(col, row, 512, 256);
    var p := row * 512 + col;
    HitsMembers(mask, p + 1);
    coordsOut, samplesOut := coords, samples;
    if mask[p] == 255 {
      coordsOut := coordsOut + [Point(col, row)];
      var embeddingFeatures: seq<real> := [];
      for index := 0 to 4
        invariant embeddingFeatures == embedding[4 * p .. 4 * p + index]
      {
        embeddingFeatures := embeddingFeatures + [embedding[4 * p + index]];
      }
      samplesOut := samplesOut + [Sample(embeddingFeatures, NotClassified)];
    }
  }

  /** gather_pixel_embedding_features: rows, then columns; every pixel equal to 255
      appends its point and a not-yet-classified sample of its four features, so the
      two lists grow in lockstep.  The caller passes empty lists. */
  method GatherPixelEmbeddingFeatures(mask: seq<int>, embedding: seq<real>)
    returns (coords: seq<Point>, samples: seq<Sample>)
    requires |mask| == 131072 && 4 * |mask| <= |embedding|
    ensures GatheredUpTo(mask, embedding, |mask|, coords, samples)
  {
    coords := [];
    samples := [];
    for row := 0 to 256
      invariant GatheredUpTo(mask, embedding, row * 512, coords, samples)
    {
      for col := 0 to 512
        invariant GatheredUpTo(mask, embedding, row * 512 + col, coords, samples)
      {
        coords, samples := GatherPixel(mask, embedding, col, row, coords, samples);
      }
    }
  }

  /** Gathering yields exactly the set pixels: a point is listed when and only when
      it lies in the mask and its byte is 255, and sample i carries the features of
      point i. */
  lemma GatheredPoints(mask: seq<int>, embedding: seq<real>, coords: seq<Point>, samples: seq<Sample>, x: int, y: int)
    requires |mask| == 131072 && 4 * |mask| <= |embedding|
    requires GatheredUpTo(mask, embedding, |mask|, coords, samples)
    ensures |coords| == |samples|
    ensures Point(x, y) in coords <==> 0 <= x < 512 && 0 <= y < 256 && mask[y * 512 + x] == 255
    ensures forall i :: 0 <= i < |coords| ==>
      0 <= coords[i].x < 512 && 0 <= coords[i].y < 256 &&
      samples[i].features == FeatureAt(embedding, coords[i].y * 512 + coords[i].x)
  {
    var hits := Hits(mask, |mask|);
    HitsMembers(mask, |mask|);
    forall i | 0 <= i < |coords|
      ensures 0 <= coords[i].x < 512 && 0 <= coords[i].y < 256 && coords[i].y * 512 + coords[i].x == hits[i]
    {
      assert hits[i] in hits;
      FlatInRange(hits[i], 512, 256);
      assert hits[i] == hits[i] / 512 * 512 + hits[i] % 512;
    }
    if 0 <= x < 512 && 0 <= y < 256 && mask[y * 512 + x] == 255 {
      RowMajor(x, y, 512, 256);
      var p := y * 512 + x;
      assert p in hits;
      var i :| 0 <= i < |hits| && hits[i] == p;
      assert coords[i] == Point(x, y);
    }
  }

  // ---- Shuffling ----

  /** simultaneously_random_shuffle as written: both vectors are taken by value and
      the index vector is only reserved, so it stays empty and the copy loop never
      runs.  The returned pair is the final state of the local copies, which equals
      the input: the caller's coords and samples keep their order. */
  method ShuffleAsWritten<T1, T2>(src1: seq<T1>, src2: seq<T2>) returns (local1: seq<T1>, local2: seq<T2>)
    ensures local1 == src1 && local2 == src2
  {
    local1, local2 := src1, src2;
    if |src1| == 0 || |src2| == 0 {
      return;
    }
    var indexes: seq<int> := [];
    var copy1, copy2 := local1, local2;
    for i := 0 to |indexes|
      invariant local1 == src1 && local2 == src2
    {
      assert false;
    }
  }

  /** A permutation of 0 .. n-1, as std::random_shuffle produces from std::iota. */
  predicate IsPermutation(perm: seq<int>, n: int) {
    |perm| == n &&
    (forall i :: 0 <= i < n ==> 0 <= perm[i] < n) &&
    (forall j :: 0 <= j < n ==> j in perm)
  }

  /** `src` reordered by the index vector: entry i is src[perm[i]]. */
  function Permuted<T>(src: seq<T>, perm: seq<int>): (r: seq<T>)
    requires forall i :: 0 <= i < |perm| ==> 0 <= perm[i] < |src|
    ensures |r| == |perm|
  {
    seq(|perm|, i requires 0 <= i < |perm| => src[perm[i]])
  }

  /** The intended shuffle: the caller's vectors reordered by the same random
      permutation (a parameter), so that coordinate i and sample i stay a pair. */
  method Shuffle<T1, T2>(src1: seq<T1>, src2: seq<T2>, perm: seq<int>) returns (out1: seq<T1>, out2: seq<T2>)
    requires |src1| <= |src2| && IsPermutation(perm, |src1|)
    ensures |src1| == 0 || |src2| == 0 ==> out1 == src1 && out2 == src2
    ensures |src1| > 0 && |src2| > 0 ==>
      out1 == Permuted(src1, perm) && |out2| == |src2| &&
      out2[.. |src1|] == Permuted(src2, perm) && out2[|src1| ..] == src2[|src1| ..]
  {
    out1, out2 := src1, src2;
    if |src1| == 0 || |src2| == 0 {
      return;
    }
    var indexes := perm;
    var copy1, copy2 := src1, src2;
    for i := 0 to |indexes|
      invariant |out1| == |src1| && |out2| == |src2|
      invariant forall k :: 0 <= k < i ==> out1[k] == copy1[indexes[k]] && out2[k] == copy2[indexes[k]]
      invariant forall k :: i <= k < |src1| ==> out1[k] == src1[k]
      invariant forall k :: i <= k < |src2| ==> out2[k] == src2[k]
    {
      out1 := out1[i := copy1[indexes[i]]];
      out2 := out2[i := copy2[indexes[i]]];
    }
  }

  /** The pair (a1[i], a2[i]) occurs as some pair (b1[j], b2[j]). */
  ghost predicate PairOccurs<T1, T2>(a1: seq<T1>, a2: seq<T2>, i: int, b1: seq<T1>, b2: seq<T2>)
    requires 0 <= i < |a1| && i < |a2| && |b1| <= |b2|
  {
    exists j :: 0 <= j < |b1| && a1[i] == b1[j] && a2[i] == b2[j]
  }

  /** Every pair (a1[i], a2[i]) occurs as a pair (b1[j], b2[j]). */
  ghost predicate PairsAmong<T1, T2>(a1: seq<T1>, a2: seq<T2>, b1: seq<T1>, b2: seq<T2>)
    requires |a1| <= |a2| && |b1| <= |b2|
  {
    forall i :: 0 <= i < |a1| ==> PairOccurs(a1, a2, i, b1, b2)
  }

  /** The intended shuffle keeps the pairs: every output pair is an input pair, and
      every input pair appears in the output. */
  lemma PermutedPairs<T1, T2>(src1: seq<T1>, src2: seq<T2>, perm: seq<int>)
    requires |src1| == |src2| && IsPermutation(perm, |src1|)
    ensures PairsAmong(Permuted(src1, perm), Permuted(src2, perm), src1, src2)
    ensures PairsAmong(src1, src2, Permuted(src1, perm), Permuted(src2, perm))
  {
    var out1, out2 := Permuted(src1, perm), Permuted(src2, perm);
    forall i | 0 <= i < |out1|
      ensures PairOccurs(out1, out2, i, src1, src2)
    {
      assert out1[i] == src1[perm[i]] && out2[i] == src2[perm[i]];
    }
    forall j | 0 <= j < |src1|
      ensures PairOccurs(src1, src2, j, out1, out2)
    {
      assert j in perm;
      var i :| 0 <= i < |src1| && perm[i] == j;
      assert out1[i] == src1[j] && out2[i] == src2[j];
    }
  }

  /** The intended shuffle can move data where the one as written cannot: two
      distinct points swapped by the permutation [1, 0]. */
  lemma ShuffleMovesPoints()
    ensures Permuted([Point(0, 0), Point(1, 0)], [1, 0]) == [Point(1, 0), Point(0, 0)]
    ensures Permuted([Point(0, 0), Point(1, 0)], [1, 0]) != [Point(0, 0), Point(1, 0)]
  {
    var r := Permuted([Point(0, 0), Point(1, 0)], [1, 0]);
    assert r[0] == Point(1, 0) && r[1] == Point(0, 0);
  }

  // ---- Normalisation ----

  /** Every sample has at least as many features as the first, which fixes the
      dimension of the mean and deviation vectors. */
  predicate FeaturesFit(samples: seq<Sample>) {
    forall i :: 0 <= i < |samples| ==> |samples[0].features| <= |samples[i].features|
  }

  function Dims(samples: seq<Sample>): nat {
    if |samples| == 0 then 0 else |samples[0].features|
  }

  /** The sum of feature k over the first n samples. */
  function Sum(samples: seq<Sample>, k: int, n: int): real
    requires 0 <= n <= |samples| && FeaturesFit(samples) && 0 <= k < Dims(samples)
  {
    if n == 0 then 0.0 else Sum(samples, k, n - 1) + samples[n - 1].features[k]
  }

  /** The sum of the squared distances of feature k to `m` over the first n samples. */
  function SumSq(samples: seq<Sample>, m: real, k: int, n: int): real
    requires 0 <= n <= |samples| && FeaturesFit(samples) && 0 <= k < Dims(samples)
  {
    if n == 0 then 0.0
    else SumSq(samples, m, k, n - 1) + (samples[n - 1].features[k] - m) * (samples[n - 1].features[k] - m)
  }

  /** calculate_mean_feature_vector: empty for no samples, otherwise the average of
      every feature. */
  function MeanOf(samples: seq<Sample>): (mean: seq<real>)
    requires FeaturesFit(samples)
    ensures |mean| == Dims(samples)
  {
    if |samples| == 0 then []
    else seq(Dims(samples), k requires 0 <= k < Dims(samples) => Sum(samples, k, |samples|) / |samples| as real)
  }

  /** calculate_stddev_feature_vector: empty for no samples, otherwise the square
      root (a parameter) of the mean squared distance to the mean. */
  function StddevOf(samples: seq<Sample>, mean: seq<real>, sqrt: real -> real): (stddev: seq<real>)
    requires FeaturesFit(samples) && Dims(samples) <= |mean|
    ensures |stddev| == Dims(samples)
  {
    if |samples| == 0 then []
    else (seq(Dims(samples), k requires 0 <= k < Dims(samples) =>
      sqrt(SumSq(samples, mean[k], k, |samples|) / |samples| as real)))
  }

  /** The first loop of both vectors: after `i` samples, entries below `j` hold the
      sums over i + 1 samples and the others the sums over i. */
  predicate PartialSums(samples: seq<Sample>, acc: seq<real>, i: int, j: int)
    requires FeaturesFit(samples) && 0 <= i < |samples| && 0 <= j <= Dims(samples)
  {
    |acc| == Dims(samples) &&
    (forall k :: 0 <= k < j ==> acc[k] == Sum(samples, k, i + 1)) &&
    (forall k :: j <= k < Dims(samples) ==> acc[k] == Sum(samples, k, i))
  }

  method MeanFeatureVector(samples: seq<Sample>) returns (mean: seq<real>)
    requires FeaturesFit(samples)
    ensures mean == MeanOf(samples)
  {
    if |samples| == 0 {
      return [];
    }
    var featureDims := |samples[0].features|;
    var sampleNums := |samples|;
    mean := seq(featureDims, _ => 0.0);
    for i := 0 to sampleNums
      invariant |mean| == featureDims
      invariant forall k :: 0 <= k < featureDims ==> mean[k] == Sum(samples, k, i)
    {
      for index := 0 to featureDims
        invariant PartialSums(samples, mean, i, index)
      {
        mean := mean[index := mean[index] + samples[i].features[index]];
      }
    }
    for index := 0 to featureDims
      invariant |mean| == featureDims
      invariant forall k :: 0 <= k < index ==> mean[k] == Sum(samples, k, sampleNums) / sampleNums as real
      invariant forall k :: index <= k < featureDims ==> mean[k] == Sum(samples, k, sampleNums)
    {
      mean := mean[index := mean[index] / sampleNums as real];
    }
  }

  /** PartialSums for the squared distances. */
  predicate PartialSquares(samples: seq<Sample>, mean: seq<real>, acc: seq<real>, i: int, j: int)
    requires FeaturesFit(samples) && Dims(samples) <= |mean| && 0 <= i < |samples| && 0 <= j <= Dims(samples)
  {
    |acc| == Dims(samples) &&
    (forall k :: 0 <= k < j ==> acc[k] == SumSq(samples, mean[k], k, i + 1)) &&
    (forall k :: j <= k < Dims(samples) ==> acc[k] == SumSq(samples, mean[k], k, i))
  }

  method StddevFeatureVector(samples: seq<Sample>, mean: seq<real>, sqrt: real -> real) returns (stddev: seq<real>)
    requires FeaturesFit(samples) && Dims(samples) <= |mean|
    ensures stddev == StddevOf(samples, mean, sqrt)
  {
    if |samples| == 0 {
      return [];
    }
    var featureDims := |samples[0].features|;
    var sampleNums := |samples|;
    stddev := seq(featureDims, _ => 0.0);
    for i := 0 to sampleNums
      invariant |stddev| == featureDims
      invariant forall k :: 0 <= k < featureDims ==> stddev[k] == SumSq(samples, mean[k], k, i)
    {
      for index := 0 to featureDims
        invariant PartialSquares(samples, mean, stddev, i, index)
      {
        var diff := samples[i].features[index] - mean[index];
        diff := diff * diff;
        stddev := stddev[index := stddev[index] + diff];
      }
    }
    for index := 0 to featureDims
      invariant |stddev| == featureDims
      invariant forall k :: 0 <= k < index ==> stddev[k] == sqrt(SumSq(samples, mean[k], k, sampleNums) / sampleNums as real)
      invariant forall k :: index <= k < featureDims ==> stddev[k] == SumSq(samples, mean[k], k, sampleNums)
    {
      stddev := stddev[index := stddev[index] / sampleNums as real];
      stddev := stddev[index := sqrt(stddev[index])];
    }
  }

  /** A constant feature averages to itself and has no spread. */
  lemma {:induction false} ConstantFeature(samples: seq<Sample>, k: int, n: int, v: real)
    requires 0 <= n <= |samples| && FeaturesFit(samples) && 0 <= k < Dims(samples)
    requires forall i :: 0 <= i < n ==> samples[i].features[k] == v
    ensures Sum(samples, k, n) == n as real * v
    ensures SumSq(samples, v, k, n) == 0.0
  {
    if n > 0 {
      ConstantFeature(samples, k, n - 1, v);
      AddOne((n - 1) as real, v);
    }
  }

  /** The mean of a constant feature is that constant. */
  lemma MeanOfConstant(samples: seq<Sample>, k: int, v: real)
    requires |samples| > 0 && FeaturesFit(samples) && 0 <= k < Dims(samples)
    requires forall i :: 0 <= i < |samples| ==> samples[i].features[k] == v
    ensures MeanOf(samples)[k] == v
  {
    ConstantFeature(samples, k, |samples|, v);
    var n := |samples| as real;
    var total := Sum(samples, k, |samples|);
    assert total == n * v;
    assert MeanOf(samples)[k] == total / n;
    DivCancel(n, v);
    assert total / n == (n * v) / n;
  }

  lemma AddOne(c: real, v: real)
    ensures c * v + v == (c + 1.0) * v
  {
  }

  lemma DivCancel(n: real, v: real)
    requires n != 0.0
    ensures (n * v) / n == v
  {
  }

  /** The squared distances never sum to a negative value, so the square root is
      taken of a non-negative number. */
  lemma {:induction false} SumSqNonNegative(samples: seq<Sample>, m: real, k: int, n: int)
    requires 0 <= n <= |samples| && FeaturesFit(samples) && 0 <= k < Dims(samples)
    ensures SumSq(samples, m, k, n) >= 0.0
  {
    if n > 0 {
      SumSqNonNegative(samples, m, k, n - 1);
      var d := samples[n - 1].features[k] - m;
      assert d * d >= 0.0;
    }
  }

  /** All samples carry exactly the dimension of the first. */
  predicate SameDims(samples: seq<Sample>) {
    forall i :: 0 <= i < |samples| ==> |samples[i].features| == Dims(samples)
  }

  /** Every deviation the normalisation divides by is non-zero. */
  predicate Spread(samples: seq<Sample>, sqrt: real -> real)
    requires FeaturesFit(samples)
  {
    forall k :: 0 <= k < Dims(samples) ==> StddevOf(samples, MeanOf(samples), sqrt)[k] != 0.0
  }

  /** Sample i with every feature moved by the mean and divided by the deviation. */
  function NormalizedOf(samples: seq<Sample>, mean: seq<real>, stddev: seq<real>): (out: seq<Sample>)
    requires SameDims(samples) && Dims(samples) <= |mean| && Dims(samples) <= |stddev|
    requires forall k :: 0 <= k < Dims(samples) ==> stddev[k] != 0.0
    ensures |out| == |samples|
  {
    seq(|samples|, i requires 0 <= i < |samples| =>
      samples[i].(features := seq(Dims(samples), k requires 0 <= k < Dims(samples) =>
        (samples[i].features[k] - mean[k]) / stddev[k])))
  }

  /** normalize_sample_features: the mean and deviation of the samples, then every
      sample normalised with them; flags are kept.  No samples give no samples. */
  method NormalizeSampleFeatures(samples: seq<Sample>, sqrt: real -> real) returns (out: seq<Sample>)
    requires FeaturesFit(samples) && SameDims(samples) && Spread(samples, sqrt)
    ensures |samples| == 0 ==> out == []
    ensures out == NormalizedOf(samples, MeanOf(samples), StddevOf(samples, MeanOf(samples), sqrt))
  {
    var meanFeatureVector := MeanFeatureVector(samples);
    var stddevFeatureVector := StddevFeatureVector(samples, meanFeatureVector, sqrt);
    var copy := samples;
    for i := 0 to |copy|
      invariant |copy| == |samples|
      invariant forall k :: 0 <= k < i ==> copy[k] == NormalizedOf(samples, meanFeatureVector, stddevFeatureVector)[k]
      invariant forall k :: i <= k < |samples| ==> copy[k] == samples[k]
    {
      var feature := copy[i].features;
      for index := 0 to |feature|
        invariant |feature| == Dims(samples)
        invariant forall k :: 0 <= k < index ==>
          feature[k] == (samples[i].features[k] - meanFeatureVector[k]) / stddevFeatureVector[k]
        invariant forall k :: index <= k < |feature| ==> feature[k] == samples[i].features[k]
      {
        feature := feature[index := (feature[index] - meanFeatureVector[index]) / stddevFeatureVector[index]];
      }
      copy := copy[i := copy[i].(features := feature)];
    }
    out := copy;
  }

  /** `total` of `count` values, each moved by `m`, divided by `s`. */
  function Shifted(total: real, count: real, m: real, s: real): real
    requires s != 0.0
  {
    (total - count * m) / s
  }

  /** Feature k of the first n samples of `out` is that of `samples` moved by `m` and
      divided by `s`. */
  predicate NormalizedUpTo(samples: seq<Sample>, out: seq<Sample>, m: real, s: real, k: int, n: int)
    requires 0 <= n <= |samples| && n <= |out| && s != 0.0
    requires FeaturesFit(samples) && FeaturesFit(out) && 0 <= k < Dims(samples) && 0 <= k < Dims(out)
  {
    forall i :: 0 <= i < n ==> out[i].features[k] == Shifted(samples[i].features[k], 1.0, m, s)
  }

  /** Moving by `m` and dividing by `s` distributes over the sum of a feature. */
  lemma {:induction false} SumNormalized(samples: seq<Sample>, out: seq<Sample>, m: real, s: real, k: int, n: int)
    requires 0 <= n <= |samples| && n <= |out| && FeaturesFit(samples) && FeaturesFit(out)
    requires s != 0.0 && 0 <= k < Dims(samples) && 0 <= k < Dims(out)
    requires NormalizedUpTo(samples, out, m, s, k, n)
    ensures Sum(out, k, n) == Shifted(Sum(samples, k, n), n as real, m, s)
  {
    if n > 0 {
      assert NormalizedUpTo(samples, out, m, s, k, n - 1);
      SumNormalized(samples, out, m, s, k, n - 1);
      NormalizedStep(Sum(out, k, n - 1), out[n - 1].features[k], Sum(samples, k, n - 1),
                     samples[n - 1].features[k], m, s, (n - 1) as real, n as real);
    }
  }

  /** Adding one more normalised value to a normalised sum gives the normalised sum
      of one more value. */
  lemma NormalizedStep(prev: real, x: real, a: real, f: real, m: real, s: real, c: real, n: real)
    requires s != 0.0 && n == c + 1.0
    requires prev == Shifted(a, c, m, s) && x == Shifted(f, 1.0, m, s)
    ensures prev + x == Shifted(a + f, n, m, s)
  {
    assert (a - c * m) + (f - 1.0 * m) == a + f - n * m;
    DivAdd(a - c * m, f - 1.0 * m, s);
  }

  lemma DivAdd(u: real, v: real, s: real)
    requires s != 0.0
    ensures u / s + v / s == (u + v) / s
  {
  }

  /** Every normalised sample keeps the dimension, and each of its features is the
      original moved by the mean and divided by the deviation. */
  lemma NormalizedShape(samples: seq<Sample>, mean: seq<real>, stddev: seq<real>, k: int)
    requires |samples| > 0 && FeaturesFit(samples) && SameDims(samples)
    requires Dims(samples) <= |mean| && Dims(samples) <= |stddev|
    requires forall j :: 0 <= j < Dims(samples) ==> stddev[j] != 0.0
    requires 0 <= k < Dims(samples)
    ensures var out := NormalizedOf(samples, mean, stddev);
      FeaturesFit(out) && Dims(out) == Dims(samples) &&
      NormalizedUpTo(samples, out, mean[k], stddev[k], k, |samples|)
  {
    var out := NormalizedOf(samples, mean, stddev);
    forall i | 0 <= i < |out|
      ensures |out[i].features| == Dims(samples)
      ensures out[i].features[k] == Shifted(samples[i].features[k], 1.0, mean[k], stddev[k])
    {
    }
  }

  /** A sum moved by its own mean is zero. */
  lemma MeanCancels(total: real, count: real, m: real, s: real)
    requires count != 0.0 && s != 0.0 && m == total / count
    ensures Shifted(total, count, m, s) == 0.0
  {
    assert count * m == total;
  }

  /** After normalisation every feature averages to zero. */
  lemma NormalizedMeanZero(samples: seq<Sample>, sqrt: real -> real, k: int)
    requires |samples| > 0 && FeaturesFit(samples) && SameDims(samples) && Spread(samples, sqrt)
    requires 0 <= k < Dims(samples)
    ensures var out := NormalizedOf(samples, MeanOf(samples), StddevOf(samples, MeanOf(samples), sqrt));
      FeaturesFit(out) && Dims(out) == Dims(samples) && Sum(out, k, |out|) == 0.0
  {
    var mean := MeanOf(samples);
    var stddev := StddevOf(samples, mean, sqrt);
    var out := NormalizedOf(samples, mean, stddev);
    NormalizedShape(samples, mean, stddev, k);
    SumNormalized(samples, out, mean[k], stddev[k], k, |samples|);
    MeanCancels(Sum(samples, k, |samples|), |samples| as real, mean[k], stddev[k]);
  }

  // ---- Clustering ----

  /** The clusters of sample indices and the noise indices DBSCAN returns. */
  datatype Clustering = Clustering(clusters: seq<seq<int>>, noise: seq<int>)

  /** cluster_pixem_embedding_features: with no samples the outputs are left as they
      were; otherwise they become the result of DBSCAN (a parameter) run with
      min points 4, radius 0.4 and at most 500 neighbours. */
  method ClusterPixelEmbeddingFeatures(samples: seq<Sample>, before: Clustering,
                                       dbscan: (seq<Sample>, int, real, int) -> Clustering)
    returns (after: Clustering)
    ensures |samples| == 0 ==> after == before
    ensures |samples| > 0 ==> after == dbscan(samples, 4, 0.4, 500)
  {
    if |samples| == 0 {
      return before;
    }
    after := dbscan(samples, 4, 0.4, 500);
  }
}

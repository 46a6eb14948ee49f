// What the inference-helper back ends share: the tensor descriptions they
// fill in, the `create` factory, the lazy dequantisation of a UINT8 tensor,
// the NHWC <-> NCHW layout change and the folding of the normalisation
// parameters.

module InferenceHelper {
  import opened Common

  /** RET_OK / RET_ERR. */
  datatype Status = Ok | Err

  /** A status together with a value the call updated in place (even when it fails). */
  datatype Updated<T> = Updated(status: Status, value: T)

  datatype TensorType = TypeNone | TypeUint8 | TypeFp32 | TypeInt32 | TypeInt64

  /** HELPER_TYPE. `OpenCvGpu` is the OpenCL variant of the OpenCV helper. */
  datatype HelperType =
    | TensorflowLite | TensorflowLiteEdgetpu | TensorflowLiteGpu | TensorflowLiteXnnpack
    | Ncnn | NcnnVulkan | Mnn | OpenCv | OpenCvGpu | TensorRt

  // ---------------------------------------------------------------------
  // create

  /** The compile-time switches INFERENCE_HELPER_ENABLE_TENSORRT, _TFLITE and
      the three _TFLITE_DELEGATE_ switches. */
  datatype BuildConfig = BuildConfig(tensorRt: bool, tflite: bool, edgetpu: bool, gpu: bool, xnnpack: bool)

  /** The class `create` instantiates. */
  datatype Backend = TensorRtBackend | TfliteBackend

  /** The object `create` returns: its class and the helper type stored in it. */
  datatype Helper = Helper(backend: Backend, helperType: HelperType)

  predicate IsTfliteFamily(t: HelperType) {
    t == TensorflowLite || t == TensorflowLiteEdgetpu || t == TensorflowLiteGpu || t == TensorflowLiteXnnpack
  }

  /** Whether the build has a case label for `t`: the delegate cases sit inside
      the TensorFlow Lite switch and need their own switch as well. */
  predicate Compiled(t: HelperType, cfg: BuildConfig) {
    (t == TensorRt && cfg.tensorRt)
    || (IsTfliteFamily(t) && cfg.tflite
        && (t == TensorflowLiteEdgetpu ==> cfg.edgetpu)
        && (t == TensorflowLiteGpu ==> cfg.gpu)
        && (t == TensorflowLiteXnnpack ==> cfg.xnnpack))
  }

  /** `create`; None stands for the `exit(1)` of the default branch. The
      factory knows only the TensorRT and TensorFlow Lite classes. */
  function Create(t: HelperType, cfg: BuildConfig): (r: Option<Helper>)
    ensures r.Some? <==> Compiled(t, cfg)
    ensures r.Some? ==> r.value.helperType == t
    ensures r.Some? ==> (r.value.backend == TfliteBackend <==> IsTfliteFamily(t))
  {
    match t
    case TensorRt => if cfg.tensorRt then Some(Helper(TensorRtBackend, t)) else None
    case TensorflowLite => if cfg.tflite then Some(Helper(TfliteBackend, t)) else None
    case TensorflowLiteEdgetpu => if cfg.tflite && cfg.edgetpu then Some(Helper(TfliteBackend, t)) else None
    case TensorflowLiteGpu => if cfg.tflite && cfg.gpu then Some(Helper(TfliteBackend, t)) else None
    case TensorflowLiteXnnpack => if cfg.tflite && cfg.xnnpack then Some(Helper(TfliteBackend, t)) else None
    case _ => None
  }

  // ---------------------------------------------------------------------
  // TensorInfo and getDataAsFloat

  /** What the untyped `data` pointer of a TensorInfo points at. */
  datatype RawData = NullData | Uint8Data(bytes: seq<int>) | Fp32Data(values: seq<real>)

  /** Which buffer `getDataAsFloat` hands out. */
  datatype FloatPointer = NullPointer | RawPointer | ConvertedPointer

  /** The real value of a quantised byte. */
  function DequantisedValue(b: int, zeroPoint: int, scale: real): real {
    (b - zeroPoint) as real * scale
  }

  /** The float image of a run of quantised bytes, element by element. */
  function Dequantised(bytes: seq<int>, zeroPoint: int, scale: real): (r: seq<real>)
    ensures |r| == |bytes|
  {
    seq(|bytes|, i requires 0 <= i < |bytes| => DequantisedValue(bytes[i], zeroPoint, scale))
  }

  /** Quantising a real value: the inverse of the affine map for a nonzero scale. */
  function Quantised(v: real, zeroPoint: int, scale: real): real
    requires scale != 0.0
  {
    v / scale + zeroPoint as real
  }

  lemma DequantisedValueInverts(b: int, zeroPoint: int, scale: real)
    requires scale != 0.0
    ensures Quantised(DequantisedValue(b, zeroPoint, scale), zeroPoint, scale) == b as real
  {
    var d := (b - zeroPoint) as real;
    assert d * scale / scale == d;
  }

  /** With a nonzero scale no information is lost: quantising each element gives the bytes back. */
  lemma DequantiseRoundTrip(bytes: seq<int>, zeroPoint: int, scale: real)
    requires scale != 0.0
    ensures forall i :: 0 <= i < |bytes| ==>
      Quantised(Dequantised(bytes, zeroPoint, scale)[i], zeroPoint, scale) == bytes[i] as real
  {
    forall i | 0 <= i < |bytes|
      ensures Quantised(Dequantised(bytes, zeroPoint, scale)[i], zeroPoint, scale) == bytes[i] as real
    {
      DequantisedValueInverts(bytes[i], zeroPoint, scale);
    }
  }

  lemma DequantisedValueMonotone(a: int, b: int, zeroPoint: int, scale: real)
    requires scale > 0.0 && a <= b
    ensures DequantisedValue(a, zeroPoint, scale) <= DequantisedValue(b, zeroPoint, scale)
  {
    var x, y := (a - zeroPoint) as real, (b - zeroPoint) as real;
    assert y * scale - x * scale == (y - x) * scale;
  }

  /** For a positive scale the conversion keeps the order of the bytes, and the
      zero point maps to 0.0. */
  lemma DequantiseOrdered(bytes: seq<int>, zeroPoint: int, scale: real, i: int, j: int)
    requires scale > 0.0 && 0 <= i < |bytes| && 0 <= j < |bytes|
    ensures bytes[i] <= bytes[j] ==>
      Dequantised(bytes, zeroPoint, scale)[i] <= Dequantised(bytes, zeroPoint, scale)[j]
    ensures bytes[i] == zeroPoint ==> Dequantised(bytes, zeroPoint, scale)[i] == 0.0
  {
    if bytes[i] <= bytes[j] {
      DequantisedValueMonotone(bytes[i], bytes[j], zeroPoint, scale);
    }
  }

  lemma ProductSnoc(dims: seq<int>, d: int)
    ensures Product(dims + [d]) == Product(dims) * d
  {
    if dims == [] {
      assert [] + [d] == [d];
      assert [d][1..] == [];
    } else {
      var e := dims + [d];
      assert e[0] == dims[0] && e[1..] == dims[1..] + [d];
      ProductSnoc(dims[1..], d);
      MulAssoc(dims[0], Product(dims[1..]), d);
    }
  }

  lemma MulAssoc(a: int, b: int, c: int)
    ensures a * (b * c) == (a * b) * c
  {
  }

  /** `dataNum *= dims[i]` over all dimensions: the element count of a tensor. */
  method ElementCount(dims: seq<int>) returns (n: int)
    ensures n == Product(dims)
  {
    n := 1;
    for i := 0 to |dims|
      invariant n == Product(dims[..i])
    {
      assert dims[..i + 1] == dims[..i] + [dims[i]];
      ProductSnoc(dims[..i], dims[i]);
      n := n * dims[i];
    }
    assert dims[..|dims|] == dims;
  }

  class TensorInfo {
    var index: int
    var tensorType: TensorType
    var data: RawData
    var dims: seq<int>
    var quantScale: real
    var quantZeroPoint: int
    /** The float buffer `getDataAsFloat` allocates on first use (m_dataFp32). */
    var dataFp32: array?<real>

    /** A new descriptor: no index, no type, no data, no dimensions, a zero
        quantisation and no float buffer. */
    constructor ()
      ensures index == -1 && tensorType == TypeNone && data == NullData && dims == []
      ensures quantScale == 0.0 && quantZeroPoint == 0 && dataFp32 == null
    {
      index := -1;
      tensorType := TypeNone;
      data := NullData;
      dims := [];
      quantScale := 0.0;
      quantZeroPoint := 0;
      dataFp32 := null;
    }

    /** getDataAsFloat: a UINT8 tensor is dequantised into the float buffer,
        which is allocated on the first call only; an FP32 tensor hands out
        its own data; any other type gets NULL. */
    method GetDataAsFloat() returns (p: FloatPointer)
      requires tensorType == TypeUint8 ==>
        data.Uint8Data? && (forall k :: 0 <= k < |dims| ==> dims[k] >= 0) && Product(dims) <= |data.bytes|
      requires tensorType == TypeUint8 && dataFp32 != null ==> Product(dims) <= dataFp32.Length
      modifies this, dataFp32
      ensures index == old(index) && tensorType == old(tensorType) && data == old(data) && dims == old(dims)
      ensures quantScale == old(quantScale) && quantZeroPoint == old(quantZeroPoint)
      ensures tensorType == TypeUint8 ==>
        p == ConvertedPointer && dataFp32 != null && Product(dims) <= dataFp32.Length
        && dataFp32[..Product(dims)] == Dequantised(data.bytes[..Product(dims)], quantZeroPoint, quantScale)
        && (old(dataFp32) != null ==> dataFp32[Product(dims)..] == old(dataFp32[Product(dims)..]))
      ensures tensorType == TypeUint8 && old(dataFp32) == null ==> fresh(dataFp32) && dataFp32.Length == Product(dims)
      ensures old(dataFp32) != null ==> dataFp32 == old(dataFp32)
      ensures tensorType == TypeFp32 ==> p == RawPointer && dataFp32 == old(dataFp32) && (dataFp32 != null ==> unchanged(dataFp32))
      ensures tensorType != TypeUint8 && tensorType != TypeFp32 ==>
        p == NullPointer && dataFp32 == old(dataFp32) && (dataFp32 != null ==> unchanged(dataFp32))
    {
      if tensorType == TypeUint8 {
        var dataNum := ElementCount(dims);
        if dataFp32 == null {
          dataFp32 := new real[dataNum];
        }
        var buffer := dataFp32;
        var bytes := data.bytes;
        ghost var target := Dequantised(bytes[..dataNum], quantZeroPoint, quantScale);
        for i := 0 to dataNum
          invariant buffer == dataFp32 && data.Uint8Data? && bytes == data.bytes
          invariant index == old(index) && tensorType == old(tensorType) && data == old(data) && dims == old(dims)
          invariant quantScale == old(quantScale) && quantZeroPoint == old(quantZeroPoint)
          invariant forall k :: 0 <= k < i ==> buffer[k] == target[k]
          invariant forall k :: dataNum <= k < buffer.Length ==> buffer[k] == old(buffer[k])
        {
          buffer[i] := DequantisedValue(bytes[i], quantZeroPoint, quantScale);
        }
        p := ConvertedPointer;
      } else if tensorType == TypeFp32 {
        p := RawPointer;
      } else {
        p := NullPointer;
      }
    }
  }

  // ---------------------------------------------------------------------
  // The tensor descriptions of the back ends

  /** InputTensorInfo::DATA_TYPE: an image, a raw blob in either layout, or a
      value outside the enumeration. */
  datatype DataKind = Image | BlobNhwc | BlobNchw | OtherKind

  /** Batch, height, width and channel; -1 means "not set". */
  datatype TensorDims = TensorDims(batch: int, height: int, width: int, channel: int)

  datatype ImageInfo = ImageInfo(width: int, height: int, channel: int,
                                 cropX: int, cropY: int, cropWidth: int, cropHeight: int,
                                 isBGR: bool, swapColor: bool)

  /** The per-channel normalisation `(x - mean) * norm`, three entries each. */
  datatype Normalize = Normalize(mean: seq<real>, norm: seq<real>)

  datatype InputTensorInfo = InputTensorInfo(name: string, id: int, tensorType: TensorType,
                                             tensorDims: TensorDims, dataKind: DataKind,
                                             imageInfo: ImageInfo, normalize: Normalize)

  datatype OutputTensorInfo = OutputTensorInfo(name: string, id: int, tensorType: TensorType,
                                               tensorDims: TensorDims, quantScale: real, quantZeroPoint: int)

  /** An image input passes the checks of the back ends that neither crop nor
      resize nor convert colours: no crop, crop size equal to the tensor size,
      equal channel counts. */
  predicate IsPlainImage(info: InputTensorInfo) {
    info.imageInfo.width == info.imageInfo.cropWidth && info.imageInfo.height == info.imageInfo.cropHeight
    && info.imageInfo.cropWidth == info.tensorDims.width && info.imageInfo.cropHeight == info.tensorDims.height
    && info.imageInfo.channel == info.tensorDims.channel
  }

  /** The crop / resize / colour checks, in the order the back ends make them:
      Err at the first one that fails. */
  function PlainImageCheck(info: InputTensorInfo): (r: Status)
    ensures r == Ok <==> IsPlainImage(info)
  {
    if info.imageInfo.width != info.imageInfo.cropWidth || info.imageInfo.height != info.imageInfo.cropHeight then Err
    else if info.imageInfo.cropWidth != info.tensorDims.width || info.imageInfo.cropHeight != info.tensorDims.height then Err
    else if info.imageInfo.channel != info.tensorDims.channel then Err
    else Ok
  }

  // ---------------------------------------------------------------------
  // Layout change between NHWC and NCHW

  /** Where element k of the transpose of a rows x cols row-major matrix comes from. */
  function TransposedSource(k: int, rows: nat, cols: nat): (j: int)
    requires 0 <= k < rows * cols
    ensures 0 <= j < rows * cols
  {
    FlatInRange(k, rows, cols);
    TransposeBound(k % rows, k / rows, rows, cols);
    (k % rows) * cols + k / rows
  }

  lemma TransposeBound(r: int, q: int, rows: nat, cols: nat)
    requires 0 <= r < rows && 0 <= q < cols
    ensures 0 <= r * cols + q < rows * cols
  {
    MulNonNeg(r, cols);
    MulNonNeg(rows - 1 - r, cols);
    assert rows * cols == r * cols + cols + (rows - 1 - r) * cols;
  }

  /** The transpose of a rows x cols row-major matrix, a cols x rows matrix:
      element (j, i) of the result is element (i, j) of `s`. An NCHW buffer
      is a C x HW matrix and its NHWC form an HW x C one, so
      `Transposed(s, c, hw)` is NCHW -> NHWC and `Transposed(s, hw, c)` is
      NHWC -> NCHW. */
  function Transposed<T>(s: seq<T>, rows: nat, cols: nat): (r: seq<T>)
    requires |s| == rows * cols
    ensures |r| == rows * cols
  {
    seq(rows * cols, k requires 0 <= k < rows * cols => s[TransposedSource(k, rows, cols)])
  }

  /** Element (j, i) of the transpose, at j * rows + i, is element (i, j). */
  lemma TransposedAt<T>(s: seq<T>, rows: nat, cols: nat, i: int, j: int)
    requires |s| == rows * cols && 0 <= i < rows && 0 <= j < cols
    ensures 0 <= j * rows + i < rows * cols && 0 <= i * cols + j < rows * cols
    ensures Transposed(s, rows, cols)[j * rows + i] == s[i * cols + j]
  {
    TransposeBound(j, i, cols, rows);
    TransposeBound(i, j, rows, cols);
    DivModOf(j * rows + i, j, i, rows);
  }

  lemma TransposedSourceInverts(k: int, rows: nat, cols: nat)
    requires 0 <= k < rows * cols
    ensures TransposedSource(TransposedSource(k, cols, rows), rows, cols) == k
  {
    FlatInRange(k, cols, rows);
    var q, r := k / cols, k % cols;
    var j := TransposedSource(k, cols, rows);
    assert j == r * rows + q;
    DivModOf(j, r, q, rows);
  }

  /** Changing the layout there and back is the identity, so each direction
      is a bijection: NHWC -> NCHW undoes NCHW -> NHWC and vice versa. */
  lemma TransposeRoundTrip<T>(s: seq<T>, rows: nat, cols: nat)
    requires |s| == rows * cols
    ensures Transposed(Transposed(s, rows, cols), cols, rows) == s
  {
    var t := Transposed(s, rows, cols);
    var u := Transposed(t, cols, rows);
    forall k | 0 <= k < rows * cols
      ensures u[k] == s[k]
    {
      TransposedSourceInverts(k, rows, cols);
    }
  }

  /** One step of the copy loop: destination element r * cols + q is in range
      and is the transpose's element, source element q * rows + r. */
  lemma TransposeStep<T>(s: seq<T>, rows: nat, cols: nat, r: int, q: int)
    requires |s| == rows * cols && 0 <= r < rows && 0 <= q < cols
    ensures 0 <= r * cols + q < rows * cols && 0 <= q * rows + r < rows * cols
    ensures Transposed(s, cols, rows)[r * cols + q] == s[q * rows + r]
  {
    TransposedAt(s, cols, rows, q, r);
  }

  /** The copy loop of both layout changes: for every row r of the destination
      and every column q, dst[r * cols + q] = src[q * rows + r]. */
  method TransposeInto<T>(src: array<T>, dst: array<T>, rows: nat, cols: nat)
    requires src != dst && src.Length >= rows * cols && dst.Length >= rows * cols
    modifies dst
    ensures dst[..rows * cols] == Transposed(src[..rows * cols], cols, rows)
    ensures dst[rows * cols..] == old(dst[rows * cols..])
  {
    ghost var n := rows * cols;
    ghost var s := src[..n];
    ghost var target := Transposed(s, cols, rows);
    var pos := 0;
    for r := 0 to rows
      invariant pos == r * cols && pos <= n
      invariant forall k :: 0 <= k < pos ==> dst[k] == target[k]
      invariant forall k :: pos <= k < dst.Length ==> dst[k] == old(dst[k])
    {
      for q := 0 to cols
        invariant pos == r * cols + q && pos <= n
        invariant forall k :: 0 <= k < pos ==> dst[k] == target[k]
        invariant forall k :: pos <= k < dst.Length ==> dst[k] == old(dst[k])
      {
        TransposeStep(s, rows, cols, r, q);
        dst[pos] := src[q * rows + r];
        pos := pos + 1;
      }
      assert pos == (r + 1) * cols;
    }
    assert pos == n;
    assert dst[..n] == target;
  }

  // ---------------------------------------------------------------------
  // convertNormalizeParameters

  /** The folded mean of one channel: `mean * 255`. */
  function FoldedMean(m: real): real { m * 255.0 }

  /** The folded norm of one channel: `1 / (norm * 255)`. */
  function FoldedNorm(n: real): real
    requires n != 0.0
  {
    1.0 / (n * 255.0)
  }

  /** The folding is what makes the fast form exact: for every pixel value,
      (x - mean * 255) * (1 / (norm * 255)) = (x / 255 - mean) / norm. */
  lemma FoldedNormalizeExact(x: real, m: real, n: real)
    requires n != 0.0
    ensures (x - FoldedMean(m)) * FoldedNorm(n) == (x / 255.0 - m) / n
  {
    var d := n * 255.0;
    assert x - m * 255.0 == (x / 255.0 - m) * 255.0;
    assert ((x / 255.0 - m) * 255.0) * (1.0 / d) == ((x / 255.0 - m) * 255.0) / d;
  }

  /** convertNormalizeParameters (identical in the TensorFlow Lite, MNN and
      OpenCV helpers): image inputs get the first three means multiplied by
      255 and norms replaced by 1 / (norm * 255); other inputs are left alone. */
  method ConvertNormalizeParameters(kind: DataKind, mean: array<real>, norm: array<real>)
    requires mean != norm && mean.Length >= 3 && norm.Length >= 3
    requires kind == Image ==> norm[0] != 0.0 && norm[1] != 0.0 && norm[2] != 0.0
    modifies mean, norm
    ensures kind != Image ==> mean[..] == old(mean[..]) && norm[..] == old(norm[..])
    ensures kind == Image ==> forall c :: 0 <= c < 3 ==>
      mean[c] == FoldedMean(old(mean[c])) && old(norm[c]) != 0.0 && norm[c] == FoldedNorm(old(norm[c]))
    ensures forall c :: 3 <= c < mean.Length ==> mean[c] == old(mean[c])
    ensures forall c :: 3 <= c < norm.Length ==> norm[c] == old(norm[c])
  {
    if kind != Image {
      return;
    }
    for i := 0 to 3
      invariant forall c :: 0 <= c < i ==>
        mean[c] == FoldedMean(old(mean[c])) && old(norm[c]) != 0.0 && norm[c] == FoldedNorm(old(norm[c]))
      invariant forall c :: i <= c < mean.Length ==> mean[c] == old(mean[c])
      invariant forall c :: i <= c < norm.Length ==> norm[c] == old(norm[c])
    {
      mean[i] := mean[i] * 255.0;
      norm[i] := norm[i] * 255.0;
      norm[i] := 1.0 / norm[i];
    }
  }

  /** `(x - mean[c]) * norm[c]` with the folded parameters of channel c. */
  function NormalizedValue(x: real, mean: seq<real>, norm: seq<real>, c: int): real
    requires 0 <= c < |mean| && 0 <= c < |norm|
  {
    (x - mean[c]) * norm[c]
  }

  /** An NHWC buffer with each element normalised by the parameters of its channel. */
  function NormalizedNhwc(s: seq<real>, channels: nat, mean: seq<real>, norm: seq<real>): (r: seq<real>)
    requires channels > 0 && channels <= |mean| && channels <= |norm|
    ensures |r| == |s|
  {
    seq(|s|, k requires 0 <= k < |s| => NormalizedValue(s[k], mean, norm, k % channels))
  }
}

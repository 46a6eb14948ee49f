// The TensorFlow Lite back end of the inference helper: matching the
// caller's tensor descriptions against the interpreter's tensors, the
// checks and copies of preProcess and the size of a rebound input buffer.

module TfliteHelper {
  import opened Common
  import opened InferenceHelper

  /** The element type of an interpreter tensor. */
  datatype TfliteType = KUInt8 | KFloat32 | KInt32 | KInt64 | KOtherType

  /** An interpreter tensor: its tensor index, name, shape, element type and
      quantisation parameters. */
  datatype ModelTensor = ModelTensor(index: int, name: string, dims: seq<int>,
                                     elemType: TfliteType, scale: real, zeroPoint: int)

  // ---------------------------------------------------------------------
  // Finding a tensor by name

  /** The position of the first tensor carrying `name`. */
  function FindByName(ts: seq<ModelTensor>, name: string): (r: Option<nat>)
    ensures r.Some? ==> r.value < |ts| && ts[r.value].name == name
    ensures r.Some? ==> forall k :: 0 <= k < r.value ==> ts[k].name != name
    ensures r.None? <==> forall k :: 0 <= k < |ts| ==> ts[k].name != name
  {
    if ts == [] then None
    else if ts[0].name == name then Some(0)
    else
      match FindByName(ts[1..], name)
      case None => None
      case Some(k) => Some(k + 1)
  }

  /** The `for (auto i : inputs())` / `outputs()` scan with its early return. */
  method FindTensor(ts: seq<ModelTensor>, name: string) returns (r: Option<nat>)
    ensures r == FindByName(ts, name)
  {
    var k := 0;
    while k < |ts|
      invariant 0 <= k <= |ts|
      invariant forall j :: 0 <= j < k ==> ts[j].name != name
    {
      if ts[k].name == name {
        FirstIsFound(ts, name, k);
        return Some(k);
      }
      k := k + 1;
    }
    return None;
  }

  lemma FirstIsFound(ts: seq<ModelTensor>, name: string, k: nat)
    requires k < |ts| && ts[k].name == name
    requires forall j :: 0 <= j < k ==> ts[j].name != name
    ensures FindByName(ts, name) == Some(k)
  {
  }

  // ---------------------------------------------------------------------
  // getInputTensorInfo

  /** No model dimension is -1. */
  predicate ModelSizeFixed(dims: seq<int>) {
    forall k :: 0 <= k < |dims| ==> dims[k] != -1
  }

  /** The caller set all four dimensions. */
  predicate SizeAssigned(d: TensorDims) {
    d.batch != -1 && d.height != -1 && d.width != -1 && d.channel != -1
  }

  /** The model shape read as NHWC: entry k of the model that exists is the
      matching field of `d`. Entries beyond the fourth are not compared. */
  predicate SizeAgrees(d: TensorDims, dims: seq<int>) {
    (|dims| > 0 ==> d.batch == dims[0]) && (|dims| > 1 ==> d.height == dims[1])
    && (|dims| > 2 ==> d.width == dims[2]) && (|dims| > 3 ==> d.channel == dims[3])
  }

  /** The dimensions taken from a fixed model, each at least 1. */
  function FromModel(dims: seq<int>): (d: TensorDims)
    requires |dims| >= 4
    ensures d.batch >= 1 && d.height >= 1 && d.width >= 1 && d.channel >= 1
    ensures SizeAssigned(d)
  {
    TensorDims(Max(1, dims[0]), Max(1, dims[1]), Max(1, dims[2]), Max(1, dims[3]))
  }

  /** The element type reported for an interpreter type; other types leave
      the caller's value. */
  function TensorTypeOf(k: TfliteType, fallback: TensorType): TensorType {
    match k
    case KUInt8 => TypeUint8
    case KFloat32 => TypeFp32
    case KInt32 => TypeInt32
    case KInt64 => TypeInt64
    case KOtherType => fallback
  }

  /** What getInputTensorInfo does once the name matched tensor `t`. The id is
      written first, so it is set on the error paths too. `allocateOk` is the
      outcome of AllocateTensors after a resize. */
  function InputTensorUpdate(t: ModelTensor, info: InputTensorInfo, allocateOk: bool): (r: Updated<InputTensorInfo>)
    requires ModelSizeFixed(t.dims) && !SizeAssigned(info.tensorDims) ==> |t.dims| >= 4
    ensures r.value.id == t.index
    ensures r.value.name == info.name && r.value.dataKind == info.dataKind
    ensures r.value.imageInfo == info.imageInfo && r.value.normalize == info.normalize
    ensures r.status == Err <==>
      (!ModelSizeFixed(t.dims) && !SizeAssigned(info.tensorDims))
      || (ModelSizeFixed(t.dims) && SizeAssigned(info.tensorDims) && !SizeAgrees(info.tensorDims, t.dims))
      || (!ModelSizeFixed(t.dims) && SizeAssigned(info.tensorDims) && !allocateOk)
    ensures r.status == Ok ==> SizeAssigned(r.value.tensorDims)
    ensures r.status == Ok ==> r.value.tensorType == TensorTypeOf(t.elemType, info.tensorType)
    ensures r.status == Err ==> r.value == info.(id := t.index)
  {
    var withId := info.(id := t.index);
    var isFixed := ModelSizeFixed(t.dims);
    var isAssigned := SizeAssigned(info.tensorDims);
    if !isFixed && !isAssigned then Updated(Err, withId)
    else if isFixed && isAssigned && !SizeAgrees(info.tensorDims, t.dims) then Updated(Err, withId)
    else if !isFixed && isAssigned && !allocateOk then Updated(Err, withId)
    else
      var dims := if isFixed && !isAssigned then FromModel(t.dims) else info.tensorDims;
      Updated(Ok, withId.(tensorDims := dims, tensorType := TensorTypeOf(t.elemType, info.tensorType)))
  }

  /** A successful negotiation against a fixed model agrees with every model
      dimension that is at least 1 (a dimension of 0 becomes 1). */
  lemma NegotiatedAgreesWithModel(t: ModelTensor, info: InputTensorInfo, allocateOk: bool)
    requires ModelSizeFixed(t.dims) && |t.dims| >= 4
    requires InputTensorUpdate(t, info, allocateOk).status == Ok
    ensures var d := InputTensorUpdate(t, info, allocateOk).value.tensorDims;
      (t.dims[0] >= 1 ==> d.batch == t.dims[0]) && (t.dims[1] >= 1 ==> d.height == t.dims[1])
      && (t.dims[2] >= 1 ==> d.width == t.dims[2]) && (t.dims[3] >= 1 ==> d.channel == t.dims[3])
  {
    if !SizeAssigned(info.tensorDims) {
      var d := FromModel(t.dims);
      assert d == InputTensorUpdate(t, info, allocateOk).value.tensorDims;
    }
  }

  /** Negotiating a second time with the dimensions the first call filled in
      from a fixed four-dimensional model with positive entries succeeds and
      changes nothing. */
  lemma NegotiationIdempotent(t: ModelTensor, info: InputTensorInfo, allocateOk: bool)
    requires ModelSizeFixed(t.dims) && |t.dims| == 4
    requires forall k :: 0 <= k < 4 ==> t.dims[k] >= 1
    requires InputTensorUpdate(t, info, allocateOk).status == Ok
    ensures var once := InputTensorUpdate(t, info, allocateOk).value;
      InputTensorUpdate(t, once, allocateOk) == Updated(Ok, once)
  {
    var once := InputTensorUpdate(t, info, allocateOk).value;
    NegotiatedAgreesWithModel(t, info, allocateOk);
    assert SizeAgrees(once.tensorDims, t.dims);
    assert t.elemType == KOtherType ==> once.tensorType == info.tensorType;
  }

  /** The tensor the name finds, if any, has the four dimensions the source
      reads when it takes the size from a fixed model. */
  predicate DimsReadable(inputs: seq<ModelTensor>, info: InputTensorInfo) {
    match FindByName(inputs, info.name)
    case None => true
    case Some(k) => ModelSizeFixed(inputs[k].dims) && !SizeAssigned(info.tensorDims) ==> |inputs[k].dims| >= 4
  }

  /** getInputTensorInfo over the interpreter's input tensors: an unknown name
      is an error that leaves the description alone. */
  function InputTensorLookup(inputs: seq<ModelTensor>, info: InputTensorInfo, allocateOk: bool): (r: Updated<InputTensorInfo>)
    requires DimsReadable(inputs, info)
    ensures (forall k :: 0 <= k < |inputs| ==> inputs[k].name != info.name) ==> r == Updated(Err, info)
  {
    match FindByName(inputs, info.name)
    case None => Updated(Err, info)
    case Some(k) => InputTensorUpdate(inputs[k], info, allocateOk)
  }

  method GetInputTensorInfo(inputs: seq<ModelTensor>, info: InputTensorInfo, allocateOk: bool)
    returns (r: Updated<InputTensorInfo>)
    requires DimsReadable(inputs, info)
    ensures r == InputTensorLookup(inputs, info, allocateOk)
  {
    var found := FindTensor(inputs, info.name);
    if found.None? {
      return Updated(Err, info);
    }
    r := InputTensorUpdate(inputs[found.value], info, allocateOk);
  }

  // ---------------------------------------------------------------------
  // getOutputTensorInfo

  /** The output shape read positionally into batch, height, width and
      channel; fields beyond the model's rank keep their value. */
  function OutputDims(dims: seq<int>, d: TensorDims): (r: TensorDims)
    ensures SizeAgrees(r, dims)
    ensures |dims| < 4 ==> r.channel == d.channel
    ensures |dims| < 1 ==> r == d
  {
    TensorDims(if |dims| > 0 then dims[0] else d.batch, if |dims| > 1 then dims[1] else d.height,
               if |dims| > 2 then dims[2] else d.width, if |dims| > 3 then dims[3] else d.channel)
  }

  /** What getOutputTensorInfo does once the name matched tensor `t`: id and
      dimensions are written before the type switch, whose default fails. */
  function OutputTensorUpdate(t: ModelTensor, info: OutputTensorInfo): (r: Updated<OutputTensorInfo>)
    ensures r.value.id == t.index && r.value.name == info.name
    ensures r.value.tensorDims == OutputDims(t.dims, info.tensorDims)
    ensures r.status == Err <==> t.elemType == KOtherType
    ensures r.status == Ok ==> r.value.tensorType == TensorTypeOf(t.elemType, info.tensorType)
    ensures t.elemType == KUInt8 ==> r.value.quantScale == t.scale && r.value.quantZeroPoint == t.zeroPoint
    ensures t.elemType != KUInt8 ==>
      r.value.quantScale == info.quantScale && r.value.quantZeroPoint == info.quantZeroPoint
  {
    var base := info.(id := t.index, tensorDims := OutputDims(t.dims, info.tensorDims));
    match t.elemType
    case KUInt8 => Updated(Ok, base.(tensorType := TypeUint8, quantScale := t.scale, quantZeroPoint := t.zeroPoint))
    case KFloat32 => Updated(Ok, base.(tensorType := TypeFp32))
    case KInt32 => Updated(Ok, base.(tensorType := TypeInt32))
    case KInt64 => Updated(Ok, base.(tensorType := TypeInt64))
    case KOtherType => Updated(Err, base)
  }

  /** A four-dimensional output shape is copied exactly, in NHWC order. */
  lemma OutputDimsReadBack(t: ModelTensor, info: OutputTensorInfo)
    requires |t.dims| == 4
    ensures var d := OutputTensorUpdate(t, info).value.tensorDims;
      [d.batch, d.height, d.width, d.channel] == t.dims
  {
    var d := OutputTensorUpdate(t, info).value.tensorDims;
    assert SizeAgrees(d, t.dims);
  }

  function OutputTensorLookup(outputs: seq<ModelTensor>, info: OutputTensorInfo): (r: Updated<OutputTensorInfo>)
    ensures (forall k :: 0 <= k < |outputs| ==> outputs[k].name != info.name) ==> r == Updated(Err, info)
  {
    match FindByName(outputs, info.name)
    case None => Updated(Err, info)
    case Some(k) => OutputTensorUpdate(outputs[k], info)
  }

  method GetOutputTensorInfo(outputs: seq<ModelTensor>, info: OutputTensorInfo) returns (r: Updated<OutputTensorInfo>)
    ensures r == OutputTensorLookup(outputs, info)
  {
    var found := FindTensor(outputs, info.name);
    if found.None? {
      return Updated(Err, info);
    }
    r := OutputTensorUpdate(outputs[found.value], info);
  }

  /** Every input resolves against the interpreter's inputs. */
  predicate InputsResolve(model: seq<ModelTensor>, inputs: seq<InputTensorInfo>, allocateOk: bool)
    requires forall j :: 0 <= j < |inputs| ==> DimsReadable(model, inputs[j])
  {
    forall j :: 0 <= j < |inputs| ==> InputTensorLookup(model, inputs[j], allocateOk).status == Ok
  }

  /** Every output resolves against the interpreter's outputs. */
  predicate OutputsResolve(model: seq<ModelTensor>, outputs: seq<OutputTensorInfo>) {
    forall j :: 0 <= j < |outputs| ==> OutputTensorLookup(model, outputs[j]).status == Ok
  }

  /** initialize once the model and interpreter are built (`interpreterReady`
      covers building both and AllocateTensors): every input description and
      then every output description is resolved in order, and the first
      failure is RET_ERR. */
  method Initialize(interpreterReady: bool, modelInputs: seq<ModelTensor>, modelOutputs: seq<ModelTensor>,
                    allocateOk: bool, inputs: seq<InputTensorInfo>, outputs: seq<OutputTensorInfo>)
    returns (st: Status, ins: seq<InputTensorInfo>, outs: seq<OutputTensorInfo>)
    requires forall j :: 0 <= j < |inputs| ==> DimsReadable(modelInputs, inputs[j])
    ensures st == Ok <==>
      interpreterReady && InputsResolve(modelInputs, inputs, allocateOk) && OutputsResolve(modelOutputs, outputs)
    ensures |ins| == |inputs| && |outs| == |outputs|
    ensures st == Ok ==> forall j :: 0 <= j < |inputs| ==> ins[j] == InputTensorLookup(modelInputs, inputs[j], allocateOk).value
    ensures st == Ok ==> forall j :: 0 <= j < |outputs| ==> outs[j] == OutputTensorLookup(modelOutputs, outputs[j]).value
  {
    ins, outs := inputs, outputs;
    if !interpreterReady {
      return Err, ins, outs;
    }
    for j := 0 to |inputs|
      invariant |ins| == |inputs|
      invariant forall k :: 0 <= k < j ==>
        InputTensorLookup(modelInputs, inputs[k], allocateOk).status == Ok
        && ins[k] == InputTensorLookup(modelInputs, inputs[k], allocateOk).value
    {
      var r := GetInputTensorInfo(modelInputs, inputs[j], allocateOk);
      ins := ins[j := r.value];
      if r.status == Err {
        return Err, ins, outs;
      }
    }
    for j := 0 to |outputs|
      invariant |outs| == |outputs| && |ins| == |inputs|
      invariant InputsResolve(modelInputs, inputs, allocateOk)
      invariant forall k :: 0 <= k < |inputs| ==> ins[k] == InputTensorLookup(modelInputs, inputs[k], allocateOk).value
      invariant forall k :: 0 <= k < j ==>
        OutputTensorLookup(modelOutputs, outputs[k]).status == Ok && outs[k] == OutputTensorLookup(modelOutputs, outputs[k]).value
    {
      var r := GetOutputTensorInfo(modelOutputs, outputs[j]);
      outs := outs[j := r.value];
      if r.status == Err {
        return Err, ins, outs;
      }
    }
    st := Ok;
  }

  // ---------------------------------------------------------------------
  // preProcess

  /** What preProcess does with the data of one input. */
  datatype Transfer =
    | CopyBytes        // memcpy of a UINT8 image
    | NormalizeImage   // (src - mean[c]) * norm[c] into an FP32 tensor
    | BindBuffer       // setBufferToTensor on an NHWC blob
    | PermuteToNhwc    // NCHW blob -> NHWC tensor
    | Rejected

  predicate IsBlobType(t: TensorType) {
    t == TypeUint8 || t == TypeFp32 || t == TypeInt32 || t == TypeInt64
  }

  /** The branch preProcess takes for an input whose tensor exists. */
  function InputTransfer(info: InputTensorInfo): (t: Transfer)
    ensures t == CopyBytes <==> info.dataKind == Image && IsPlainImage(info) && info.tensorType == TypeUint8
    ensures t == NormalizeImage <==> info.dataKind == Image && IsPlainImage(info) && info.tensorType == TypeFp32
    ensures t == BindBuffer <==> info.dataKind == BlobNhwc && IsBlobType(info.tensorType)
    ensures t == PermuteToNhwc <==> info.dataKind == BlobNchw && IsBlobType(info.tensorType)
  {
    match info.dataKind
    case Image =>
      if PlainImageCheck(info) == Err then Rejected
      else if info.tensorType == TypeUint8 then CopyBytes
      else if info.tensorType == TypeFp32 then NormalizeImage
      else Rejected
    case BlobNhwc => if IsBlobType(info.tensorType) then BindBuffer else Rejected
    case BlobNchw => if IsBlobType(info.tensorType) then PermuteToNhwc else Rejected
    case OtherKind => Rejected
  }

  /** An input preProcess accepts: its id names an interpreter tensor and its
      branch is not an error branch. */
  predicate Accepted(info: InputTensorInfo, tensorCount: int) {
    0 <= info.id < tensorCount && InputTransfer(info) != Rejected
  }

  /** preProcess without the data movement: the checks in input order, with
      the transfer chosen for each input. With no interpreter nothing is done. */
  method PreProcess(interpreterBuilt: bool, tensorCount: int, inputs: seq<InputTensorInfo>)
    returns (st: Status, transfers: seq<Transfer>)
    ensures st == Ok <==> interpreterBuilt && forall i :: 0 <= i < |inputs| ==> Accepted(inputs[i], tensorCount)
    ensures st == Ok ==> |transfers| == |inputs|
    ensures |transfers| <= |inputs|
    ensures forall i :: 0 <= i < |transfers| ==> transfers[i] == InputTransfer(inputs[i]) && transfers[i] != Rejected
  {
    transfers := [];
    if !interpreterBuilt {
      return Err, transfers;
    }
    for i := 0 to |inputs|
      invariant |transfers| == i
      invariant forall j :: 0 <= j < i ==> Accepted(inputs[j], tensorCount)
      invariant forall j :: 0 <= j < i ==> transfers[j] == InputTransfer(inputs[j]) && transfers[j] != Rejected
    {
      var info := inputs[i];
      if !(0 <= info.id < tensorCount) {
        return Err, transfers;
      }
      var t := InputTransfer(info);
      if t == Rejected {
        return Err, transfers;
      }
      transfers := transfers + [t];
    }
    st := Ok;
  }

  /** The FP32 image loop: every NHWC element is normalised with the
      parameters of its channel, in place of the tensor. */
  method NormalizeImageInto(src: array<real>, dst: array<real>, hw: nat, c: nat, mean: seq<real>, norm: seq<real>)
    requires src != dst && src.Length >= hw * c && dst.Length >= hw * c
    requires c <= |mean| && c <= |norm|
    modifies dst
    ensures c > 0 ==> dst[..hw * c] == NormalizedNhwc(src[..hw * c], c, mean, norm)
    ensures dst[hw * c..] == old(dst[hw * c..])
  {
    ghost var n := hw * c;
    var pos := 0;
    for i := 0 to hw
      invariant pos == i * c && pos <= n
      invariant c > 0 ==> forall k :: 0 <= k < pos ==> dst[k] == NormalizedValue(src[k], mean, norm, k % c)
      invariant forall k :: pos <= k < dst.Length ==> dst[k] == old(dst[k])
    {
      for ch := 0 to c
        invariant pos == i * c + ch && pos <= n
        invariant forall k :: 0 <= k < pos ==> dst[k] == NormalizedValue(src[k], mean, norm, k % c)
        invariant forall k :: pos <= k < dst.Length ==> dst[k] == old(dst[k])
      {
        TransposeBound(i, ch, hw, c);
        DivModOf(pos, i, ch, c);
        dst[pos] := (src[pos] - mean[ch]) * norm[ch];
        pos := pos + 1;
      }
      assert pos == (i + 1) * c;
    }
    if c > 0 {
      assert dst[..n] == NormalizedNhwc(src[..n], c, mean, norm);
    }
  }

  /** The NCHW blob branch: dst[i * C + c] = src[c * W * H + i], which is the
      transpose of the C x HW source matrix. */
  method PermuteBlobToNhwc<T>(src: array<T>, dst: array<T>, hw: nat, c: nat)
    requires src != dst && src.Length >= hw * c && dst.Length >= hw * c
    modifies dst
    ensures dst[..hw * c] == Transposed(src[..hw * c], c, hw)
    ensures dst[hw * c..] == old(dst[hw * c..])
  {
    TransposeInto(src, dst, hw, c);
  }

  // ---------------------------------------------------------------------
  // setBufferToTensor

  /** The byte count setBufferToTensor passes with the caller's buffer: one
      byte per element for UINT8 tensors, sizeof(float) for all others. The
      batch entry is not read. */
  function BoundBytes(t: ModelTensor): (n: int)
    requires |t.dims| >= 4
    ensures t.elemType == KUInt8 ==> n == t.dims[1] * t.dims[2] * t.dims[3]
    ensures t.elemType != KUInt8 ==> n == 4 * (t.dims[1] * t.dims[2] * t.dims[3])
  {
    var elements := t.dims[1] * t.dims[2] * t.dims[3];
    if t.elemType == KUInt8 then elements else 4 * elements
  }

  /** The bytes of one element of each interpreter type. */
  function ElementBytes(k: TfliteType): nat {
    match k
    case KUInt8 => 1
    case KFloat32 => 4
    case KInt32 => 4
    case KInt64 => 8
    case KOtherType => 4
  }

  /** The byte count the tensor's own shape and type call for. */
  function RequiredBytes(t: ModelTensor): int {
    ElementBytes(t.elemType) * Product(t.dims)
  }

  /** An INT64 input of shape 1x1x1x1 is bound with 4 bytes where its eight
      bytes are needed. */
  lemma BoundBytesShortForInt64()
    ensures var t := ModelTensor(0, "input", [1, 1, 1, 1], KInt64, 0.0, 0);
      BoundBytes(t) == 4 && RequiredBytes(t) == 8
  {
    var t := ModelTensor(0, "input", [1, 1, 1, 1], KInt64, 0.0, 0);
    assert Product(t.dims) == 1 by {
      assert t.dims[1..] == [1, 1, 1];
      assert t.dims[1..][1..] == [1, 1];
      assert t.dims[1..][1..][1..] == [1];
      assert t.dims[1..][1..][1..][1..] == [];
    }
  }

  /** The byte count with the element size of the tensor's own type. */
  function BindingBytes(t: ModelTensor): (n: int)
    requires |t.dims| >= 4
  {
    ElementBytes(t.elemType) * (t.dims[1] * t.dims[2] * t.dims[3])
  }

  lemma ProductOfFour(a: int, b: int, c: int, d: int)
    ensures Product([a, b, c, d]) == a * (b * (c * d))
  {
    assert [a, b, c, d][1..] == [b, c, d];
    assert [b, c, d][1..] == [c, d];
    assert [c, d][1..] == [d];
    assert [d][1..] == [];
    assert Product([d]) == d;
    assert Product([c, d]) == c * d;
    assert Product([b, c, d]) == b * (c * d);
  }

  /** For a four-dimensional tensor of batch 1 the corrected count is exactly
      the size the interpreter requires, whatever the element type. */
  lemma BindingBytesMatchTensor(t: ModelTensor)
    requires |t.dims| == 4 && t.dims[0] == 1
    ensures BindingBytes(t) == RequiredBytes(t)
    ensures t.elemType != KInt64 ==> BindingBytes(t) == BoundBytes(t)
  {
    ProductOfFour(t.dims[0], t.dims[1], t.dims[2], t.dims[3]);
    assert t.dims == [t.dims[0], t.dims[1], t.dims[2], t.dims[3]];
    assert t.dims[1] * (t.dims[2] * t.dims[3]) == t.dims[1] * t.dims[2] * t.dims[3];
  }
}

// The MNN back end of the inference helper: how initialize matches the
// caller's input tensors against the session's, the colour conversion
// preProcess configures, and the output description invoke reads back.

module MnnHelper {
  import opened Common
  import opened InferenceHelper

  /** halide_type_t::code. */
  datatype HalideCode = HalideInt | HalideUint | HalideFloat | HalideOtherCode

  /** A session tensor: its name, element code and width in bytes, and its
      shape as MNN reports it (-1 where the model leaves it open). */
  datatype SessionTensor = SessionTensor(name: string, code: HalideCode, bytes: int,
                                         batch: int, channel: int, height: int, width: int)

  /** getSessionInput / getSessionOutput: the tensor of that name, if any. */
  function Lookup(ts: seq<SessionTensor>, name: string): (r: Option<SessionTensor>)
    ensures r.Some? ==> r.value.name == name && r.value in ts
    ensures r.None? <==> forall k :: 0 <= k < |ts| ==> ts[k].name != name
  {
    if ts == [] then None
    else if ts[0].name == name then Some(ts[0])
    else Lookup(ts[1..], name)
  }

  // ---------------------------------------------------------------------
  // initialize

  /** The element types that pair: float with FP32, uint with UINT8. */
  predicate InputTypePairs(code: HalideCode, t: TensorType) {
    (code == HalideFloat && t == TypeFp32) || (code == HalideUint && t == TypeUint8)
  }

  /** The model fixes channel, height and width. */
  predicate ModelSizeFixed(t: SessionTensor) {
    t.channel != -1 && t.height != -1 && t.width != -1
  }

  /** The caller set the size; only the channel is checked. */
  predicate UserSizeSet(d: TensorDims) {
    d.channel != -1
  }

  predicate SizeEqual(t: SessionTensor, d: TensorDims) {
    t.channel == d.channel && t.height == d.height && t.width == d.width
  }

  /** The check of one input in initialize, once its name was found: the
      types must pair; a fixed model must equal a set size or fills in an
      unset one; an open model is resized to a set size and fails on an
      unset one. */
  function InputNegotiation(t: SessionTensor, info: InputTensorInfo): (r: Updated<InputTensorInfo>)
    ensures r.status == Err <==>
      !InputTypePairs(t.code, info.tensorType)
      || (ModelSizeFixed(t) && UserSizeSet(info.tensorDims) && !SizeEqual(t, info.tensorDims))
      || (!ModelSizeFixed(t) && !UserSizeSet(info.tensorDims))
    ensures r.status == Ok && ModelSizeFixed(t) ==> SizeEqual(t, r.value.tensorDims)
    ensures r.status == Ok && !ModelSizeFixed(t) ==> r.value == info
    ensures r.value.tensorDims.batch == info.tensorDims.batch
    ensures r.value == info.(tensorDims := r.value.tensorDims)
    ensures r.status == Err ==> r.value == info
  {
    if !InputTypePairs(t.code, info.tensorType) then Updated(Err, info)
    else if ModelSizeFixed(t) then
      if UserSizeSet(info.tensorDims) then
        (if SizeEqual(t, info.tensorDims) then Updated(Ok, info) else Updated(Err, info))
      else
        var d := info.tensorDims.(channel := t.channel, height := t.height, width := t.width);
        Updated(Ok, info.(tensorDims := d))
    else if UserSizeSet(info.tensorDims) then Updated(Ok, info)
    else Updated(Err, info)
  }

  /** Negotiating again with what the first negotiation produced changes
      nothing and succeeds. */
  lemma NegotiationIdempotent(t: SessionTensor, info: InputTensorInfo)
    requires InputNegotiation(t, info).status == Ok
    ensures InputNegotiation(t, InputNegotiation(t, info).value) == InputNegotiation(t, info)
  {
    var r := InputNegotiation(t, info);
    if ModelSizeFixed(t) {
      assert UserSizeSet(r.value.tensorDims);
      assert SizeEqual(t, r.value.tensorDims);
    }
  }

  /** One input in initialize, including the name lookup. */
  function InputCheck(model: seq<SessionTensor>, info: InputTensorInfo): Updated<InputTensorInfo> {
    match Lookup(model, info.name)
    case None => Updated(Err, info)
    case Some(t) => InputNegotiation(t, info)
  }

  /** The tensor part of initialize, after the model and the session were
      created: the inputs are checked in order up to the first failure, then
      every output name must exist in the session. */
  method Initialize(modelInputs: seq<SessionTensor>, modelOutputs: seq<SessionTensor>,
                    inputs: seq<InputTensorInfo>, outputs: seq<OutputTensorInfo>)
    returns (st: Status, ins: seq<InputTensorInfo>)
    ensures st == Ok <==>
      (forall j :: 0 <= j < |inputs| ==> InputCheck(modelInputs, inputs[j]).status == Ok)
      && (forall j :: 0 <= j < |outputs| ==> Lookup(modelOutputs, outputs[j].name).Some?)
    ensures |ins| == |inputs|
    ensures st == Ok ==> forall j :: 0 <= j < |ins| ==> ins[j] == InputCheck(modelInputs, inputs[j]).value
  {
    ins := inputs;
    for j := 0 to |inputs|
      invariant |ins| == |inputs|
      invariant forall k :: 0 <= k < j ==> InputCheck(modelInputs, inputs[k]).status == Ok
      invariant forall k :: 0 <= k < j ==> ins[k] == InputCheck(modelInputs, inputs[k]).value
    {
      var r := InputCheck(modelInputs, inputs[j]);
      if r.status == Err {
        return Err, ins;
      }
      ins := ins[j := r.value];
    }
    for j := 0 to |outputs|
      invariant forall k :: 0 <= k < j ==> Lookup(modelOutputs, outputs[k].name).Some?
    {
      if Lookup(modelOutputs, outputs[j].name).None? {
        return Err, ins;
      }
    }
    st := Ok;
  }

  // ---------------------------------------------------------------------
  // preProcess

  datatype PixelFormat = Bgr | Rgb | Gray

  /** The source and destination formats of MNN's image process, chosen by
      (image channels, tensor channels); None is RET_ERR. */
  function ColourFormats(imageChannel: int, tensorChannel: int, isBGR: bool, swapColor: bool): (r: Option<(PixelFormat, PixelFormat)>)
    ensures r.Some? <==> (imageChannel == 1 || imageChannel == 3) && (tensorChannel == 1 || tensorChannel == 3)
    ensures r.Some? ==> (r.value.0 == Gray <==> imageChannel == 1) && (r.value.1 == Gray <==> tensorChannel == 1)
    ensures r.Some? && imageChannel == 3 ==> r.value.0 == (if isBGR then Bgr else Rgb)
    ensures r.Some? && imageChannel == 3 && tensorChannel == 3 ==> (r.value.1 == r.value.0 <==> !swapColor)
    ensures r.Some? && imageChannel == 1 && tensorChannel == 3 ==> r.value.1 == Bgr
  {
    if imageChannel == 3 && tensorChannel == 3 then
      var src := if isBGR then Bgr else Rgb;
      var swapped := if isBGR then Rgb else Bgr;
      Some((src, if swapColor then swapped else src))
    else if imageChannel == 1 && tensorChannel == 1 then Some((Gray, Gray))
    else if imageChannel == 3 && tensorChannel == 1 then Some((if isBGR then Bgr else Rgb, Gray))
    else if imageChannel == 1 && tensorChannel == 3 then Some((Gray, Bgr))
    else None
  }

  /** How preProcess treats one input whose name the session knows. */
  datatype Transfer = ConvertImage(source: PixelFormat, dest: PixelFormat) | CopyBlob(count: int) | Rejected

  function InputTransfer(info: InputTensorInfo): (t: Transfer)
    ensures t.ConvertImage? <==>
      (info.dataKind == Image
       && info.imageInfo.width == info.imageInfo.cropWidth && info.imageInfo.height == info.imageInfo.cropHeight
       && ColourFormats(info.imageInfo.channel, info.tensorDims.channel, info.imageInfo.isBGR, info.imageInfo.swapColor).Some?)
    ensures t.CopyBlob? <==> info.dataKind == BlobNhwc || info.dataKind == BlobNchw
    ensures t.CopyBlob? ==> t.count == info.tensorDims.width * info.tensorDims.height * info.tensorDims.channel
  {
    match info.dataKind
    case Image =>
      if info.imageInfo.width != info.imageInfo.cropWidth || info.imageInfo.height != info.imageInfo.cropHeight then Rejected
      else
        (match ColourFormats(info.imageInfo.channel, info.tensorDims.channel, info.imageInfo.isBGR, info.imageInfo.swapColor)
         case Some(f) => ConvertImage(f.0, f.1)
         case None => Rejected)
    case BlobNhwc => CopyBlob(info.tensorDims.width * info.tensorDims.height * info.tensorDims.channel)
    case BlobNchw => CopyBlob(info.tensorDims.width * info.tensorDims.height * info.tensorDims.channel)
    case OtherKind => Rejected
  }

  /** preProcess without the data movement: every input's name must be a
      session input and its transfer must not be rejected; the first failure
      stops. */
  method PreProcess(modelInputs: seq<SessionTensor>, inputs: seq<InputTensorInfo>) returns (st: Status, transfers: seq<Transfer>)
    ensures st == Ok <==> forall j :: 0 <= j < |inputs| ==>
      Lookup(modelInputs, inputs[j].name).Some? && InputTransfer(inputs[j]) != Rejected
    ensures st == Ok ==> |transfers| == |inputs|
    ensures |transfers| <= |inputs| && forall j :: 0 <= j < |transfers| ==> transfers[j] == InputTransfer(inputs[j])
  {
    transfers := [];
    for j := 0 to |inputs|
      invariant |transfers| == j
      invariant forall k :: 0 <= k < j ==> Lookup(modelInputs, inputs[k].name).Some? && InputTransfer(inputs[k]) != Rejected
      invariant forall k :: 0 <= k < j ==> transfers[k] == InputTransfer(inputs[k])
    {
      if Lookup(modelInputs, inputs[j].name).None? {
        return Err, transfers;
      }
      var t := InputTransfer(inputs[j]);
      if t == Rejected {
        return Err, transfers;
      }
      transfers := transfers + [t];
    }
    st := Ok;
  }

  /** The blob loop: host[i] = data[i] for i < W * H * C. */
  method CopyBlobInto<T>(src: array<T>, dst: array<T>, count: nat)
    requires src != dst && src.Length >= count && dst.Length >= count
    modifies dst
    ensures dst[..count] == src[..count]
    ensures dst[count..] == old(dst[count..])
  {
    for i := 0 to count
      invariant forall k :: 0 <= k < i ==> dst[k] == src[k]
      invariant forall k :: i <= k < dst.Length ==> dst[k] == old(dst[k])
    {
      dst[i] := src[i];
    }
  }

  // ---------------------------------------------------------------------
  // invoke and finalize

  /** The output type invoke reports: float is FP32, a one-byte uint is
      UINT8, and anything else is RET_ERR. */
  function OutputType(t: SessionTensor): (r: Option<TensorType>)
    ensures r == Some(TypeFp32) <==> t.code == HalideFloat
    ensures r == Some(TypeUint8) <==> t.code == HalideUint && t.bytes == 1
    ensures r.Some? ==> r == Some(TypeFp32) || r == Some(TypeUint8)
  {
    if t.code == HalideFloat then Some(TypeFp32)
    else if t.code == HalideUint && t.bytes == 1 then Some(TypeUint8)
    else None
  }

  /** The output description read back from a session tensor: each dimension
      is max(dimension, 1). */
  function OutputRead(t: SessionTensor, info: OutputTensorInfo): (r: Updated<OutputTensorInfo>)
    ensures r.status == Ok <==> OutputType(t).Some?
    ensures r.status == Ok ==> r.value.tensorType == OutputType(t).value
    ensures r.status == Ok ==>
      r.value.tensorDims == TensorDims(Max(t.batch, 1), Max(t.height, 1), Max(t.width, 1), Max(t.channel, 1))
    ensures r.value.name == info.name && r.value.id == info.id
  {
    match OutputType(t)
    case None => Updated(Err, info)
    case Some(ty) =>
      Updated(Ok, info.(tensorType := ty,
                        tensorDims := TensorDims(Max(t.batch, 1), Max(t.height, 1), Max(t.width, 1), Max(t.channel, 1))))
  }

  /** Every dimension read back is at least 1, and equal to the session's where
      that is at least 1, so the element count is positive. */
  lemma OutputDimsPositive(t: SessionTensor, info: OutputTensorInfo)
    requires OutputRead(t, info).status == Ok
    ensures var d := OutputRead(t, info).value.tensorDims;
      d.batch >= 1 && d.height >= 1 && d.width >= 1 && d.channel >= 1
      && (t.channel >= 1 ==> d.channel == t.channel) && (t.height >= 1 ==> d.height == t.height)
      && (t.width >= 1 ==> d.width == t.width) && (t.batch >= 1 ==> d.batch == t.batch)
      && Product([d.batch, d.height, d.width, d.channel]) >= 1
  {
    var d := OutputRead(t, info).value.tensorDims;
    assert Product([d.channel]) == d.channel;
    assert Product([d.width, d.channel]) == d.width * d.channel;
    assert Product([d.height, d.width, d.channel]) == d.height * (d.width * d.channel);
    MulGe(d.width, d.channel);
    MulGe(d.height, d.width * d.channel);
    MulGe(d.batch, d.height * (d.width * d.channel));
  }

  class MnnHelper {
    /** The host copies of the outputs (m_outMatList), one per output. */
    var outMats: seq<SessionTensor>

    constructor ()
      ensures outMats == []
    {
      outMats := [];
    }

    /** invoke after runSession: the list is cleared, then every requested
        output is looked up, read back and kept. */
    method Invoke(modelOutputs: seq<SessionTensor>, outputs: seq<OutputTensorInfo>) returns (st: Status, outs: seq<OutputTensorInfo>)
      modifies this
      ensures st == Ok <==> forall j :: 0 <= j < |outputs| ==>
        Lookup(modelOutputs, outputs[j].name).Some? && OutputType(Lookup(modelOutputs, outputs[j].name).value).Some?
      ensures |outs| == |outputs|
      ensures st == Ok ==> |outMats| == |outputs| && forall j :: 0 <= j < |outputs| ==>
        (outMats[j] == Lookup(modelOutputs, outputs[j].name).value
         && outs[j] == OutputRead(outMats[j], outputs[j]).value)
    {
      outMats := [];
      outs := outputs;
      for j := 0 to |outputs|
        invariant |outs| == |outputs| && |outMats| == j
        invariant forall k :: 0 <= k < j ==>
          Lookup(modelOutputs, outputs[k].name).Some? && OutputType(Lookup(modelOutputs, outputs[k].name).value).Some?
        invariant forall k :: 0 <= k < j ==>
          (outMats[k] == Lookup(modelOutputs, outputs[k].name).value && outs[k] == OutputRead(outMats[k], outputs[k]).value)
      {
        var t := Lookup(modelOutputs, outputs[j].name);
        if t.None? {
          return Err, outs;
        }
        var r := OutputRead(t.value, outputs[j]);
        if r.status == Err {
          return Err, outs;
        }
        outs := outs[j := r.value];
        outMats := outMats + [t.value];
      }
      st := Ok;
    }

    /** finalize releases the session and the outputs, and reports RET_ERR
        whatever happens. */
    method Finalize() returns (st: Status)
      modifies this
      ensures st == Err && outMats == []
    {
      outMats := [];
      st := Err;
    }
  }
}

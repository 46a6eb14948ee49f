// The OpenCV (cv::dnn) back end of the inference helper: the helper types
// it runs on, how initialize renames the input and finds the output layers,
// the crop / resize / colour / normalise decisions of preProcess and the
// shape of the blob it builds, and the arity checks of invoke.

module OpenCvHelper {
  import opened Common
  import opened InferenceHelper
  import MnnHelper

  // ---------------------------------------------------------------------
  // initialize

  /** The target the network is set to run on. */
  datatype Target = CpuTarget | OpenClTarget

  /** Only the OpenCV helper types configure a network: OPEN_CV runs on the
      CPU, OPEN_CV_GPU on OpenCL; any other type is RET_ERR (None). */
  function TargetOf(t: HelperType): (r: Option<Target>)
    ensures r == Some(CpuTarget) <==> t == OpenCv
    ensures r == Some(OpenClTarget) <==> t == OpenCvGpu
    ensures r.None? <==> t != OpenCv && t != OpenCvGpu
  {
    match t
    case OpenCv => Some(CpuTarget)
    case OpenCvGpu => Some(OpenClTarget)
    case _ => None
  }

  /** A layer of the network read from the ONNX file. */
  datatype Layer = Layer(name: string, id: int)

  /** The id of the first layer with that name, if any. */
  function LayerId(layers: seq<Layer>, name: string): (r: Option<int>)
    ensures r.None? <==> forall k :: 0 <= k < |layers| ==> layers[k].name != name
    ensures r.Some? ==> exists k :: 0 <= k < |layers| && layers[k] == Layer(name, r.value)
  {
    if layers == [] then None
    else if layers[0].name == name then Some(layers[0].id)
    else
      var r := LayerId(layers[1..], name);
      if r.Some? then
        var k :| 0 <= k < |layers[1..]| && layers[1..][k] == Layer(name, r.value);
        assert layers[k + 1] == Layer(name, r.value);
        r
      else r
  }

  /** The scan over getLayerNames for one output: stops at the first layer
      of that name. */
  method FindLayer(layers: seq<Layer>, name: string) returns (found: bool, id: int)
    ensures found <==> LayerId(layers, name).Some?
    ensures found ==> id == LayerId(layers, name).value
  {
    var i := 0;
    while i < |layers|
      invariant 0 <= i <= |layers|
      invariant LayerId(layers, name) == LayerId(layers[i..], name)
    {
      if layers[i].name == name {
        return true, layers[i].id;
      }
      assert layers[i..][1..] == layers[i + 1..];
      i := i + 1;
    }
    return false, -1;
  }

  /** The outputs after initialize: every name found, its layer id recorded. */
  predicate OutputsResolved(layers: seq<Layer>, outputs: seq<OutputTensorInfo>, outs: seq<OutputTensorInfo>) {
    |outs| == |outputs|
    && forall j :: 0 <= j < |outputs| ==>
         LayerId(layers, outputs[j].name).Some? && outs[j] == outputs[j].(id := LayerId(layers, outputs[j].name).value)
  }

  /** initialize, once the ONNX file has been read (`netLoaded` is false for
      an empty network): the helper type picks the target; a single input
      takes the name and id of the first layer, while any other number of
      inputs is only reported and left as it is; every output must name a
      layer. */
  method Initialize(netLoaded: bool, helperType: HelperType, firstLayer: Layer, layers: seq<Layer>,
                    inputs: seq<InputTensorInfo>, outputs: seq<OutputTensorInfo>)
    returns (st: Status, target: Option<Target>, ins: seq<InputTensorInfo>, outs: seq<OutputTensorInfo>)
    ensures st == Ok <==>
      netLoaded && TargetOf(helperType).Some? && forall j :: 0 <= j < |outputs| ==> LayerId(layers, outputs[j].name).Some?
    ensures target == (if netLoaded then TargetOf(helperType) else None)
    ensures st == Ok ==> OutputsResolved(layers, outputs, outs)
    ensures st == Ok && |inputs| == 1 ==> ins == [inputs[0].(name := firstLayer.name, id := firstLayer.id)]
    ensures st == Ok && |inputs| != 1 ==> ins == inputs
    ensures st == Err ==> |ins| == |inputs| && |outs| == |outputs|
  {
    ins, outs, target := inputs, outputs, None;
    if !netLoaded {
      return Err, target, ins, outs;
    }
    target := TargetOf(helperType);
    if target.None? {
      return Err, target, ins, outs;
    }
    if |inputs| == 1 {
      ins := [inputs[0].(name := firstLayer.name, id := firstLayer.id)];
    }
    for j := 0 to |outputs|
      invariant |outs| == |outputs|
      invariant forall k :: 0 <= k < j ==>
        LayerId(layers, outputs[k].name).Some? && outs[k] == outputs[k].(id := LayerId(layers, outputs[k].name).value)
      invariant forall k :: j <= k < |outputs| ==> outs[k] == outputs[k]
    {
      var found, id := FindLayer(layers, outputs[j].name);
      if !found {
        return Err, target, ins, outs;
      }
      outs := outs[j := outputs[j].(id := id)];
    }
    st := Ok;
  }

  // ---------------------------------------------------------------------
  // preProcess

  /** The cvtColor applied to an image, if any. */
  datatype Conversion = NoConversion | Bgr2Rgb | Bgr2Gray | Rgb2Gray | Gray2Bgr

  /** The colour step chosen by (image channels, tensor channels); None is
      the unsupported conversion. Equal channel counts always pass, so this
      accepts everything the MNN helper accepts and more. */
  function ColourConversion(imageChannel: int, tensorChannel: int, isBGR: bool, swapColor: bool): (r: Option<Conversion>)
    ensures r.Some? <==>
      imageChannel == tensorChannel || (imageChannel == 3 && tensorChannel == 1) || (imageChannel == 1 && tensorChannel == 3)
    ensures MnnHelper.ColourFormats(imageChannel, tensorChannel, isBGR, swapColor).Some? ==> r.Some?
    ensures r == Some(Bgr2Rgb) <==> imageChannel == 3 && tensorChannel == 3 && swapColor
    ensures r == Some(NoConversion) <==> imageChannel == tensorChannel && !(imageChannel == 3 && swapColor)
    ensures r == Some(Gray2Bgr) <==> imageChannel == 1 && tensorChannel == 3
    ensures r == Some(Bgr2Gray) <==> imageChannel == 3 && tensorChannel == 1 && isBGR
    ensures r == Some(Rgb2Gray) <==> imageChannel == 3 && tensorChannel == 1 && !isBGR
  {
    if imageChannel == tensorChannel then
      Some(if imageChannel == 3 && swapColor then Bgr2Rgb else NoConversion)
    else if imageChannel == 3 && tensorChannel == 1 then Some(if isBGR then Bgr2Gray else Rgb2Gray)
    else if imageChannel == 1 && tensorChannel == 3 then Some(Gray2Bgr)
    else None
  }

  /** The channels of the mat wrapped around the caller's pixels: three if
      the image says three, otherwise one. */
  function WrappedChannels(channel: int): int {
    if channel == 3 then 3 else 1
  }

  /** The channels after the colour step. */
  function ConvertedChannels(c: Conversion, channels: int): int {
    match c
    case NoConversion => channels
    case Bgr2Rgb => channels
    case Bgr2Gray => 1
    case Rgb2Gray => 1
    case Gray2Bgr => 3
  }

  /** The crop step: a sub-rectangle only when the crop size differs from
      the image size. */
  function CropOf(im: ImageInfo): (r: Option<(int, int, int, int)>)
    ensures r.None? <==> im.width == im.cropWidth && im.height == im.cropHeight
    ensures r.Some? ==> r.value == (im.cropX, im.cropY, im.cropWidth, im.cropHeight)
  {
    if im.width == im.cropWidth && im.height == im.cropHeight then None
    else Some((im.cropX, im.cropY, im.cropWidth, im.cropHeight))
  }

  /** The resize step: to the tensor size only when the crop size differs
      from it. */
  function ResizeOf(im: ImageInfo, d: TensorDims): (r: Option<(int, int)>)
    ensures r.None? <==> im.cropWidth == d.width && im.cropHeight == d.height
    ensures r.Some? ==> r.value == (d.width, d.height)
  {
    if im.cropWidth == d.width && im.cropHeight == d.height then None
    else Some((d.width, d.height))
  }

  /** The image size after the crop step (width, height). */
  function CroppedSize(im: ImageInfo): (int, int) {
    match CropOf(im)
    case None => (im.width, im.height)
    case Some(c) => (c.2, c.3)
  }

  /** The image size after the resize step. */
  function ResizedSize(im: ImageInfo, d: TensorDims): (int, int) {
    match ResizeOf(im, d)
    case None => CroppedSize(im)
    case Some(s) => s
  }

  /** A 4-dimensional NCHW blob made by blobFromImage: how it was prepared
      and its shape (batch, height, width, channel). */
  datatype CvBlob =
    | ImageBlob(crop: Option<(int, int, int, int)>, resize: Option<(int, int)>, conversion: Conversion,
                scaled: Option<Normalize>, shape: TensorDims)
    | HwcBlob(tensorType: TensorType, shape: TensorDims)

  /** The blob built for one input; None is RET_ERR. An FP32 image is
      normalised with the folded mean and norm and needs one or three tensor
      channels; a UINT8 image is not scaled; an NHWC blob is wrapped as FP32
      or UINT8; NCHW blobs and other kinds are refused. */
  function InputBlob(info: InputTensorInfo): (r: Option<CvBlob>)
    ensures r.Some? <==>
      (info.dataKind == Image
       && ColourConversion(info.imageInfo.channel, info.tensorDims.channel, info.imageInfo.isBGR, info.imageInfo.swapColor).Some?
       && ((info.tensorType == TypeFp32 && (info.tensorDims.channel == 3 || info.tensorDims.channel == 1))
           || info.tensorType == TypeUint8))
      || (info.dataKind == BlobNhwc && (info.tensorType == TypeFp32 || info.tensorType == TypeUint8))
    ensures r.Some? && info.dataKind == Image ==>
      r.value.ImageBlob?
      && r.value.crop == CropOf(info.imageInfo) && r.value.resize == ResizeOf(info.imageInfo, info.tensorDims)
      && Some(r.value.conversion) == ColourConversion(info.imageInfo.channel, info.tensorDims.channel,
                                                      info.imageInfo.isBGR, info.imageInfo.swapColor)
      && (r.value.scaled.Some? <==> info.tensorType == TypeFp32)
      && (r.value.scaled.Some? ==> r.value.scaled.value == info.normalize)
    ensures r.Some? ==>
      r.value.shape == TensorDims(1, info.tensorDims.height, info.tensorDims.width, WrappedChannels(info.tensorDims.channel))
    ensures r.Some? && r.value.ImageBlob? && info.tensorType == TypeFp32 ==> r.value.shape.channel == info.tensorDims.channel
  {
    match info.dataKind
    case Image =>
      var im := info.imageInfo;
      (match ColourConversion(im.channel, info.tensorDims.channel, im.isBGR, im.swapColor)
       case None => None
       case Some(cv) =>
         var size := ResizedSize(im, info.tensorDims);
         var channels := ConvertedChannels(cv, WrappedChannels(im.channel));
         var shape := TensorDims(1, size.1, size.0, channels);
         if info.tensorType == TypeFp32 then
           if info.tensorDims.channel == 3 || info.tensorDims.channel == 1 then
             Some(ImageBlob(CropOf(im), ResizeOf(im, info.tensorDims), cv, Some(info.normalize), shape))
           else None
         else if info.tensorType == TypeUint8 then
           Some(ImageBlob(CropOf(im), ResizeOf(im, info.tensorDims), cv, None, shape))
         else None)
    case BlobNhwc =>
      if info.tensorType == TypeFp32 || info.tensorType == TypeUint8 then
        Some(HwcBlob(info.tensorType,
                     TensorDims(1, info.tensorDims.height, info.tensorDims.width, WrappedChannels(info.tensorDims.channel))))
      else None
    case BlobNchw => None
    case OtherKind => None
  }

  // ---------------------------------------------------------------------
  // invoke

  /** An output mat of forward: rows, columns and channels. */
  datatype CvMat = CvMat(rows: int, cols: int, channels: int)

  /** The output description read back from a forward result. */
  function OutputFromMat(info: OutputTensorInfo, m: CvMat): (r: OutputTensorInfo)
    ensures r.tensorDims.batch == 1 && r.tensorDims.height == m.rows
    ensures r.tensorDims.width == m.cols && r.tensorDims.channel == m.channels
    ensures r.name == info.name && r.id == info.id && r.tensorType == info.tensorType
    ensures r.quantScale == info.quantScale && r.quantZeroPoint == info.quantZeroPoint
  {
    info.(tensorDims := TensorDims(1, m.rows, m.cols, m.channels))
  }

  class OpenCvHelper {
    /** m_inMatList: the blobs preProcess built. */
    var inMats: seq<CvBlob>
    /** The output names requested from the last forward. */
    var requested: seq<string>
    /** m_outMatList: the mats the last forward returned. */
    var outMats: seq<CvMat>

    constructor ()
      ensures inMats == [] && requested == [] && outMats == []
    {
      inMats := [];
      requested := [];
      outMats := [];
    }

    /** preProcess: the list is cleared and one blob is kept per input until
        the first input that is refused. */
    method PreProcess(inputs: seq<InputTensorInfo>) returns (st: Status)
      modifies this
      ensures st == Ok <==> forall j :: 0 <= j < |inputs| ==> InputBlob(inputs[j]).Some?
      ensures st == Ok ==> |inMats| == |inputs|
      ensures st == Err ==> |inMats| < |inputs| && InputBlob(inputs[|inMats|]).None?
      ensures |inMats| <= |inputs| && forall k :: 0 <= k < |inMats| ==>
        InputBlob(inputs[k]).Some? && inMats[k] == InputBlob(inputs[k]).value
      ensures requested == old(requested) && outMats == old(outMats)
    {
      inMats := [];
      for j := 0 to |inputs|
        invariant |inMats| == j
        invariant forall k :: 0 <= k < j ==> InputBlob(inputs[k]).Some? && inMats[k] == InputBlob(inputs[k]).value
        invariant requested == old(requested) && outMats == old(outMats)
      {
        var b := InputBlob(inputs[j]);
        if b.None? {
          return Err;
        }
        inMats := inMats + [b.value];
      }
      st := Ok;
    }

    /** invoke: exactly one blob must be set; the output names are requested
        in order, `forwarded` is what forward returns for them, and it must
        hold one mat per output. */
    method Invoke(forwarded: seq<CvMat>, outputs: seq<OutputTensorInfo>) returns (st: Status, outs: seq<OutputTensorInfo>)
      modifies this
      ensures st == Ok <==> |inMats| == 1 && |forwarded| == |outputs|
      ensures |inMats| != 1 ==> requested == old(requested) && outMats == old(outMats)
      ensures |inMats| == 1 ==>
        outMats == forwarded && |requested| == |outputs|
        && forall j :: 0 <= j < |outputs| ==> requested[j] == outputs[j].name
      ensures st == Ok ==> |outs| == |outputs| && forall j :: 0 <= j < |outputs| ==> outs[j] == OutputFromMat(outputs[j], forwarded[j])
      ensures st == Err ==> outs == outputs
      ensures inMats == old(inMats)
    {
      outs := outputs;
      if |inMats| != 1 {
        return Err, outs;
      }
      requested := [];
      for j := 0 to |outputs|
        invariant |requested| == j && forall k :: 0 <= k < j ==> requested[k] == outputs[k].name
        invariant inMats == old(inMats)
      {
        requested := requested + [outputs[j].name];
      }
      outMats := forwarded;
      if |outMats| != |outputs| {
        return Err, outs;
      }
      for i := 0 to |outMats|
        invariant |outs| == |outputs| && outMats == forwarded && inMats == old(inMats)
        invariant forall k :: 0 <= k < i ==> outs[k] == OutputFromMat(outputs[k], forwarded[k])
        invariant |requested| == |outputs| && forall k :: 0 <= k < |outputs| ==> requested[k] == outputs[k].name
      {
        outs := outs[i := OutputFromMat(outputs[i], outMats[i])];
      }
      st := Ok;
    }

    /** finalize releases nothing and reports RET_ERR. */
    method Finalize() returns (st: Status)
      ensures st == Err
    {
      st := Err;
    }
  }
}

// The ncnn back end of the inference helper: the two model files initialize
// loads, the pixel type and blob shape preProcess hands to ncnn, and the
// output description invoke reads back from the extracted mats.

module NcnnHelper {
  import opened Common
  import opened InferenceHelper
  import MnnHelper

  // ---------------------------------------------------------------------
  // initialize

  /** The network description: the model name with ".param" appended. */
  function ParamFile(modelFilename: string): string {
    modelFilename + ".param"
  }

  /** The weights: the model name with ".bin" appended. */
  function BinFile(modelFilename: string): string {
    modelFilename + ".bin"
  }

  /** The two file names never clash, and each determines the model name. */
  lemma {:induction false} ModelFilesDistinct(a: string, b: string)
    ensures ParamFile(a) != BinFile(b)
    ensures ParamFile(a) == ParamFile(b) ==> a == b
    ensures BinFile(a) == BinFile(b) ==> a == b
  {
    var pa, bb := ParamFile(a), BinFile(b);
    assert pa[|pa| - 1] == 'm';
    assert bb[|bb| - 1] == 'n';
    if ParamFile(a) == ParamFile(b) {
      assert a == ParamFile(a)[..|a|];
      assert b == ParamFile(b)[..|b|];
    }
    if BinFile(a) == BinFile(b) {
      assert a == BinFile(a)[..|a|];
      assert b == BinFile(b)[..|b|];
    }
  }

  // ---------------------------------------------------------------------
  // preProcess

  /** ncnn::Mat::PixelType: the constants preProcess chooses from. */
  datatype PixelType =
    | PixelBgr | PixelRgb | PixelBgr2Rgb | PixelRgb2Bgr
    | PixelGray | PixelBgr2Gray | PixelRgb2Gray | PixelGray2Rgb

  /** The (source, destination) channel order a pixel type stands for. */
  function Formats(p: PixelType): (MnnHelper.PixelFormat, MnnHelper.PixelFormat) {
    match p
    case PixelBgr => (MnnHelper.Bgr, MnnHelper.Bgr)
    case PixelRgb => (MnnHelper.Rgb, MnnHelper.Rgb)
    case PixelBgr2Rgb => (MnnHelper.Bgr, MnnHelper.Rgb)
    case PixelRgb2Bgr => (MnnHelper.Rgb, MnnHelper.Bgr)
    case PixelGray => (MnnHelper.Gray, MnnHelper.Gray)
    case PixelBgr2Gray => (MnnHelper.Bgr, MnnHelper.Gray)
    case PixelRgb2Gray => (MnnHelper.Rgb, MnnHelper.Gray)
    case PixelGray2Rgb => (MnnHelper.Gray, MnnHelper.Rgb)
  }

  /** The pixel type chosen by (image channels, tensor channels); None is the
      unsupported conversion. It accepts exactly what the MNN helper accepts
      and converts the same way, except that a grey image widened to three
      channels is labelled RGB here and BGR there. */
  function PixelTypeOf(imageChannel: int, tensorChannel: int, isBGR: bool, swapColor: bool): (r: Option<PixelType>)
    ensures r.Some? <==> MnnHelper.ColourFormats(imageChannel, tensorChannel, isBGR, swapColor).Some?
    ensures r.Some? && !(imageChannel == 1 && tensorChannel == 3) ==>
      Formats(r.value) == MnnHelper.ColourFormats(imageChannel, tensorChannel, isBGR, swapColor).value
    ensures imageChannel == 1 && tensorChannel == 3 ==>
      r == Some(PixelGray2Rgb)
      && MnnHelper.ColourFormats(imageChannel, tensorChannel, isBGR, swapColor).value == (MnnHelper.Gray, MnnHelper.Bgr)
  {
    if imageChannel == 3 && tensorChannel == 3 then
      if swapColor then Some(if isBGR then PixelBgr2Rgb else PixelRgb2Bgr)
      else Some(if isBGR then PixelBgr else PixelRgb)
    else if imageChannel == 1 && tensorChannel == 1 then Some(PixelGray)
    else if imageChannel == 3 && tensorChannel == 1 then Some(if isBGR then PixelBgr2Gray else PixelRgb2Gray)
    else if imageChannel == 1 && tensorChannel == 3 then Some(PixelGray2Rgb)
    else None
  }

  /** The mat preProcess pairs with an input name: an image converted by
      from_pixels (resized = false) or from_pixels_resize (resized = true)
      into a matWidth x matHeight blob and then mean/norm normalised, or the
      empty mat a blob input leaves behind. */
  datatype InMat =
    | EmptyMat
    | ImageMat(pixel: PixelType, width: int, height: int, resized: bool,
               matWidth: int, matHeight: int, normalize: Normalize)

  /** The mat built for one input; None is RET_ERR. Cropping is refused, and
      blob inputs are reported but still accepted with an empty mat. */
  function InputMat(info: InputTensorInfo): (r: Option<InMat>)
    ensures r.Some? <==>
      (info.dataKind == BlobNhwc || info.dataKind == BlobNchw
       || (info.dataKind == Image && IsPlainImageSize(info.imageInfo)
           && PixelTypeOf(info.imageInfo.channel, info.tensorDims.channel,
                          info.imageInfo.isBGR, info.imageInfo.swapColor).Some?))
    ensures info.dataKind == BlobNhwc || info.dataKind == BlobNchw ==> r == Some(EmptyMat)
    ensures r.Some? && info.dataKind == Image ==>
      var m := r.value;
      m.ImageMat?
      && Some(m.pixel) == PixelTypeOf(info.imageInfo.channel, info.tensorDims.channel,
                                      info.imageInfo.isBGR, info.imageInfo.swapColor)
      && m.width == info.imageInfo.width && m.height == info.imageInfo.height
      && (m.resized <==> info.imageInfo.cropWidth != info.tensorDims.width || info.imageInfo.cropHeight != info.tensorDims.height)
      && m.matWidth == info.tensorDims.width && m.matHeight == info.tensorDims.height
      && m.normalize == info.normalize
  {
    match info.dataKind
    case Image =>
      var im := info.imageInfo;
      if im.width != im.cropWidth || im.height != im.cropHeight then None
      else
        (match PixelTypeOf(im.channel, info.tensorDims.channel, im.isBGR, im.swapColor)
         case None => None
         case Some(p) =>
           if im.cropWidth == info.tensorDims.width && im.cropHeight == info.tensorDims.height then
             Some(ImageMat(p, im.width, im.height, false, im.width, im.height, info.normalize))
           else
             Some(ImageMat(p, im.width, im.height, true, info.tensorDims.width, info.tensorDims.height, info.normalize)))
    case BlobNhwc => Some(EmptyMat)
    case BlobNchw => Some(EmptyMat)
    case OtherKind => None
  }

  /** The crop covers the whole image. */
  predicate IsPlainImageSize(im: ImageInfo) {
    im.width == im.cropWidth && im.height == im.cropHeight
  }

  // ---------------------------------------------------------------------
  // invoke

  /** An extracted output mat: channels, rows and columns. */
  datatype OutMat = OutMat(c: int, h: int, w: int)

  /** The output description read back from an extracted mat. */
  function OutputFromMat(info: OutputTensorInfo, m: OutMat): (r: OutputTensorInfo)
    ensures r.tensorDims.batch == 1 && r.tensorDims.channel == m.c
    ensures r.tensorDims.height == m.h && r.tensorDims.width == m.w
    ensures r.name == info.name && r.id == info.id && r.tensorType == info.tensorType
    ensures r.quantScale == info.quantScale && r.quantZeroPoint == info.quantZeroPoint
    ensures Product([r.tensorDims.batch, r.tensorDims.channel, r.tensorDims.height, r.tensorDims.width]) == m.c * m.h * m.w
  {
    var r := info.(tensorDims := TensorDims(1, m.h, m.w, m.c));
    assert Product([m.w]) == m.w;
    assert Product([m.h, m.w]) == m.h * m.w;
    assert Product([m.c, m.h, m.w]) == m.c * (m.h * m.w);
    r
  }

  class NcnnHelper {
    /** The files loaded into the network, in loading order. */
    var netFiles: seq<string>
    /** m_inMatList: input name and mat, in the order of the inputs. */
    var inMats: seq<(string, InMat)>
    /** m_outMatList: the mats extracted by the last invoke. */
    var outMats: seq<OutMat>

    constructor ()
      ensures netFiles == [] && inMats == [] && outMats == []
    {
      netFiles := [];
      inMats := [];
      outMats := [];
    }

    /** initialize: a fresh network loads the ".param" file and then the
        ".bin" file; the loader succeeds on exactly the files in `loadable`,
        and the first failure is RET_ERR. */
    method Initialize(modelFilename: string, loadable: set<string>) returns (st: Status)
      modifies this
      ensures st == Ok <==> ParamFile(modelFilename) in loadable && BinFile(modelFilename) in loadable
      ensures netFiles == (if ParamFile(modelFilename) in loadable then [ParamFile(modelFilename)] else [])
                          + (if st == Ok then [BinFile(modelFilename)] else [])
      ensures inMats == old(inMats) && outMats == old(outMats)
    {
      netFiles := [];
      if ParamFile(modelFilename) !in loadable {
        return Err;
      }
      netFiles := [ParamFile(modelFilename)];
      if BinFile(modelFilename) !in loadable {
        return Err;
      }
      netFiles := netFiles + [BinFile(modelFilename)];
      st := Ok;
    }

    /** preProcess: the list is cleared and one (name, mat) pair is kept per
        input until the first input whose mat cannot be built. */
    method PreProcess(inputs: seq<InputTensorInfo>) returns (st: Status)
      modifies this
      ensures st == Ok <==> forall j :: 0 <= j < |inputs| ==> InputMat(inputs[j]).Some?
      ensures st == Ok ==> |inMats| == |inputs|
      ensures st == Err ==> |inMats| < |inputs| && InputMat(inputs[|inMats|]).None?
      ensures |inMats| <= |inputs| && forall k :: 0 <= k < |inMats| ==>
        InputMat(inputs[k]).Some? && inMats[k] == (inputs[k].name, InputMat(inputs[k]).value)
      ensures netFiles == old(netFiles) && outMats == old(outMats)
    {
      inMats := [];
      for j := 0 to |inputs|
        invariant |inMats| == j
        invariant forall k :: 0 <= k < j ==>
          InputMat(inputs[k]).Some? && inMats[k] == (inputs[k].name, InputMat(inputs[k]).value)
        invariant netFiles == old(netFiles) && outMats == old(outMats)
      {
        var m := InputMat(inputs[j]);
        if m.None? {
          return Err;
        }
        inMats := inMats + [(inputs[j].name, m.value)];
      }
      st := Ok;
    }

    /** Every kept input name is one the network accepts. */
    predicate InputsFed(netInputs: set<string>)
      reads this
    {
      forall k :: 0 <= k < |inMats| ==> inMats[k].0 in netInputs
    }

    /** invoke: every kept mat is fed to the extractor (a name the network
        does not accept is RET_ERR before anything else changes); then the
        output list is cleared and each output is extracted, kept and read
        back, until the first name the network cannot produce. */
    method Invoke(netInputs: set<string>, netOutputs: map<string, OutMat>, outputs: seq<OutputTensorInfo>)
      returns (st: Status, outs: seq<OutputTensorInfo>)
      modifies this
      ensures st == Ok <==> InputsFed(netInputs) && forall j :: 0 <= j < |outputs| ==> outputs[j].name in netOutputs
      ensures !InputsFed(netInputs) ==> outMats == old(outMats) && outs == outputs
      ensures InputsFed(netInputs) ==>
        |outMats| <= |outputs| && |outs| == |outputs|
        && (st == Ok ==> |outMats| == |outputs|)
        && (st == Err ==> |outMats| < |outputs| && outputs[|outMats|].name !in netOutputs)
        && (forall k :: 0 <= k < |outMats| ==>
              outputs[k].name in netOutputs && outMats[k] == netOutputs[outputs[k].name]
              && outs[k] == OutputFromMat(outputs[k], outMats[k]))
        && (forall k :: |outMats| <= k < |outputs| ==> outs[k] == outputs[k])
      ensures netFiles == old(netFiles) && inMats == old(inMats)
    {
      outs := outputs;
      for k := 0 to |inMats|
        invariant forall i :: 0 <= i < k ==> inMats[i].0 in netInputs
      {
        if inMats[k].0 !in netInputs {
          return Err, outs;
        }
      }
      outMats := [];
      for j := 0 to |outputs|
        invariant |outMats| == j && |outs| == |outputs|
        invariant forall k :: 0 <= k < j ==>
          outputs[k].name in netOutputs && outMats[k] == netOutputs[outputs[k].name]
          && outs[k] == OutputFromMat(outputs[k], outMats[k])
        invariant forall k :: j <= k < |outputs| ==> outs[k] == outputs[k]
        invariant netFiles == old(netFiles) && inMats == old(inMats)
      {
        if outputs[j].name !in netOutputs {
          return Err, outs;
        }
        var m := netOutputs[outputs[j].name];
        outMats := outMats + [m];
        outs := outs[j := OutputFromMat(outputs[j], m)];
      }
      st := Ok;
    }

    /** finalize: the network is released and both lists are cleared; the
        result is RET_ERR whatever happens. */
    method Finalize() returns (st: Status)
      modifies this
      ensures st == Err && netFiles == [] && inMats == [] && outMats == []
    {
      netFiles := [];
      inMats := [];
      outMats := [];
      st := Err;
    }
  }
}

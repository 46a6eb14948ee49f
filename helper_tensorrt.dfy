// The TensorRT back end of the inference helper: the model file format and
// the serialised-engine file name, the host buffers allocated per binding
// and the matching of the caller's tensors against them, and the checks and
// NHWC -> NCHW copies of preProcess.

module TensorRtHelper {
  import opened Common
  import opened InferenceHelper

  // ---------------------------------------------------------------------
  // Model format and file name

  /** `pat` occurs in `s` at position p. */
  predicate OccursAt(s: string, pat: string, p: int) {
    0 <= p && p + |pat| <= |s| && s[p..p + |pat|] == pat
  }

  /** std::string::find from position `from`. */
  function IndexFrom(s: string, pat: string, from: nat): (r: Option<nat>)
    decreases |s| + 1 - from
    ensures r.Some? ==> from <= r.value && OccursAt(s, pat, r.value)
    ensures r.Some? ==> forall p :: from <= p < r.value ==> !OccursAt(s, pat, p)
    ensures r.None? ==> forall p :: from <= p ==> !OccursAt(s, pat, p)
  {
    if from + |pat| > |s| then None
    else if OccursAt(s, pat, from) then Some(from)
    else IndexFrom(s, pat, from + 1)
  }

  /** The first occurrence of `pat` in `s`. */
  function IndexOf(s: string, pat: string): Option<nat> {
    IndexFrom(s, pat, 0)
  }

  datatype ModelFormat = OnnxModel(trtFilename: string) | TrtModel | UnsupportedFormat

  /** The format check of initialize: a name with ".onnx" anywhere is an ONNX
      model whose engine is saved under the name with the first ".onnx"
      replaced by ".trt"; otherwise a name with ".trt" is a serialised
      engine; anything else is refused. */
  function ModelFormatOf(name: string): (f: ModelFormat)
    ensures f.OnnxModel? <==> (exists p :: OccursAt(name, ".onnx", p))
    ensures f == TrtModel <==>
      (forall p :: !OccursAt(name, ".onnx", p)) && (exists p :: OccursAt(name, ".trt", p))
  {
    match IndexOf(name, ".onnx")
    case Some(k) => OnnxModel(name[..k] + ".trt" + name[k + 5..])
    case None => if IndexOf(name, ".trt").Some? then TrtModel else UnsupportedFormat
  }

  /** A window of ".onnx" that starts inside `base` and reaches into a suffix
      beginning with '.' would have a '.' where ".onnx" has a letter. */
  lemma NoOnnxAcrossDot(base: string, ext: string, p: int)
    requires |ext| >= 1 && ext[0] == '.'
    requires forall q :: !OccursAt(base, ".onnx", q)
    requires 0 <= p < |base|
    ensures !OccursAt(base + ext, ".onnx", p)
  {
    var s := base + ext;
    if p + 5 <= |s| {
      if p + 5 <= |base| {
        assert s[p..p + 5] == base[p..p + 5];
        assert !OccursAt(base, ".onnx", p);
      } else {
        var m := |base| - p;
        assert s[p..p + 5][m] == ext[0];
        assert m == 1 || m == 2 || m == 3 || m == 4;
        assert ".onnx"[m] != '.';
      }
    }
  }

  /** For a plain model name `base.onnx` the engine is cached as `base.trt`,
      and that name is then recognised as a serialised engine. */
  lemma OnnxEngineCachedAsTrt(base: string)
    requires forall q :: !OccursAt(base, ".onnx", q)
    ensures ModelFormatOf(base + ".onnx") == OnnxModel(base + ".trt")
    ensures ModelFormatOf(base + ".trt") == TrtModel
  {
    var s := base + ".onnx";
    assert s[|base|..|base| + 5] == ".onnx";
    assert OccursAt(s, ".onnx", |base|);
    forall p | 0 <= p < |base|
      ensures !OccursAt(s, ".onnx", p)
    {
      NoOnnxAcrossDot(base, ".onnx", p);
    }
    var k := IndexOf(s, ".onnx");
    assert k == Some(|base|);
    assert s[..|base|] == base && s[|base| + 5..] == "";
    assert s[..|base|] + ".trt" + s[|base| + 5..] == base + ".trt";

    var t := base + ".trt";
    forall p | 0 <= p
      ensures !OccursAt(t, ".onnx", p)
    {
      if p < |base| {
        NoOnnxAcrossDot(base, ".trt", p);
      }
    }
    assert t[|base|..|base| + 4] == ".trt";
    assert OccursAt(t, ".trt", |base|);
  }

  // ---------------------------------------------------------------------
  // Bindings and host buffers

  /** nvinfer1::DataType of a binding; the others (kBOOL) are refused. */
  datatype TrtDataType = KFloat | KHalf | KInt8 | KInt32 | KOtherTrtType

  /** An engine binding: its name, direction, dimensions and element type. */
  datatype Binding = Binding(name: string, isInput: bool, dims: seq<int>, dataType: TrtDataType)

  /** getBindingIndex: the first binding with the name, or -1. */
  function BindingIndex(bindings: seq<Binding>, name: string): (r: int)
    ensures -1 <= r < |bindings|
    ensures r >= 0 ==> bindings[r].name == name && forall k :: 0 <= k < r ==> bindings[k].name != name
    ensures r == -1 <==> forall k :: 0 <= k < |bindings| ==> bindings[k].name != name
  {
    if bindings == [] then -1
    else if bindings[0].name == name then 0
    else
      var r := BindingIndex(bindings[1..], name);
      if r == -1 then -1 else r + 1
  }

  /** The host buffer size of a binding in bytes: four per element for
      FLOAT, HALF and INT32, one for INT8; other types have no buffer. */
  function BufferBytes(b: Binding): (r: Option<int>)
    ensures r.Some? <==> b.dataType != KOtherTrtType
    ensures b.dataType == KInt8 ==> r == Some(Product(b.dims))
    ensures r.Some? && b.dataType != KInt8 ==> r == Some(Product(b.dims) * 4)
  {
    match b.dataType
    case KFloat => Some(Product(b.dims) * 4)
    case KHalf => Some(Product(b.dims) * 4)
    case KInt32 => Some(Product(b.dims) * 4)
    case KInt8 => Some(Product(b.dims) * 1)
    case KOtherTrtType => None
  }

  /** The dimension check of an input: every binding dimension, read as
      N, C, H, W, equals the caller's; a fifth dimension never matches. */
  predicate InputDimsMatch(d: TensorDims, dims: seq<int>) {
    |dims| <= 4
    && (|dims| > 0 ==> d.batch == dims[0]) && (|dims| > 1 ==> d.channel == dims[1])
    && (|dims| > 2 ==> d.height == dims[2]) && (|dims| > 3 ==> d.width == dims[3])
  }

  /** UINT8 pairs with INT8, FP32 with FLOAT, INT32 with INT32. A HALF
      binding pairs with nothing. */
  predicate TypesMatch(t: TensorType, d: TrtDataType) {
    (t == TypeUint8 && d == KInt8) || (t == TypeFp32 && d == KFloat) || (t == TypeInt32 && d == KInt32)
  }

  /** The checks of an input bound to binding b. */
  predicate InputAccepted(b: Binding, info: InputTensorInfo) {
    InputDimsMatch(info.tensorDims, b.dims) && TypesMatch(info.tensorType, b.dataType)
  }

  /** Every input whose name resolves to binding i passes its checks. */
  predicate InputsAccepted(bindings: seq<Binding>, i: int, inputs: seq<InputTensorInfo>)
    requires 0 <= i < |bindings|
  {
    forall j :: 0 <= j < |inputs| && BindingIndex(bindings, inputs[j].name) == i ==> InputAccepted(bindings[i], inputs[j])
  }

  /** Every output whose name resolves to binding i has a matching type. */
  predicate OutputsAccepted(bindings: seq<Binding>, i: int, outputs: seq<OutputTensorInfo>)
    requires 0 <= i < |bindings|
  {
    forall j :: 0 <= j < |outputs| && BindingIndex(bindings, outputs[j].name) == i ==>
      TypesMatch(outputs[j].tensorType, bindings[i].dataType)
  }

  /** Binding i accepts the caller's tensors of its direction. */
  predicate BindingAccepted(bindings: seq<Binding>, i: int, inputs: seq<InputTensorInfo>, outputs: seq<OutputTensorInfo>)
    requires 0 <= i < |bindings|
  {
    if bindings[i].isInput then InputsAccepted(bindings, i, inputs) else OutputsAccepted(bindings, i, outputs)
  }

  /** Every binding has a buffer type and accepts the tensors naming it. */
  predicate AllAccepted(bindings: seq<Binding>, inputs: seq<InputTensorInfo>, outputs: seq<OutputTensorInfo>) {
    (forall i :: 0 <= i < |bindings| ==> BufferBytes(bindings[i]).Some?)
    && forall i :: 0 <= i < |bindings| ==> BindingAccepted(bindings, i, inputs, outputs)
  }

  /** AllAccepted for the bindings below n, one binding at a time. */
  predicate AcceptedBelow(bindings: seq<Binding>, n: int, inputs: seq<InputTensorInfo>, outputs: seq<OutputTensorInfo>)
    requires 0 <= n <= |bindings|
    decreases n
  {
    n == 0 || (AcceptedBelow(bindings, n - 1, inputs, outputs)
               && BufferBytes(bindings[n - 1]).Some? && BindingAccepted(bindings, n - 1, inputs, outputs))
  }

  lemma {:induction false} AcceptedBelowAll(bindings: seq<Binding>, n: int, inputs: seq<InputTensorInfo>, outputs: seq<OutputTensorInfo>)
    requires 0 <= n <= |bindings|
    ensures AcceptedBelow(bindings, n, inputs, outputs) <==>
      forall k :: 0 <= k < n ==> BufferBytes(bindings[k]).Some? && BindingAccepted(bindings, k, inputs, outputs)
    decreases n
  {
    if n > 0 {
      AcceptedBelowAll(bindings, n - 1, inputs, outputs);
    }
  }

  /** Acceptance reads names, dimensions and types only, never ids. */
  lemma AcceptanceAtIgnoresIds(bindings: seq<Binding>, i: int, a: seq<InputTensorInfo>, a': seq<InputTensorInfo>,
                               o: seq<OutputTensorInfo>, o': seq<OutputTensorInfo>)
    requires 0 <= i < |bindings|
    requires |a| == |a'| && forall j :: 0 <= j < |a| ==>
      a[j].name == a'[j].name && a[j].tensorDims == a'[j].tensorDims && a[j].tensorType == a'[j].tensorType
    requires |o| == |o'| && forall j :: 0 <= j < |o| ==> o[j].name == o'[j].name && o[j].tensorType == o'[j].tensorType
    ensures InputsAccepted(bindings, i, a) <==> InputsAccepted(bindings, i, a')
    ensures OutputsAccepted(bindings, i, o) <==> OutputsAccepted(bindings, i, o')
  {
    InputsAcceptedIgnoresIds(bindings, i, a, a');
    InputsAcceptedIgnoresIds(bindings, i, a', a);
    OutputsAcceptedIgnoresIds(bindings, i, o, o');
    OutputsAcceptedIgnoresIds(bindings, i, o', o);
  }

  lemma InputsAcceptedIgnoresIds(bindings: seq<Binding>, i: int, a: seq<InputTensorInfo>, a': seq<InputTensorInfo>)
    requires 0 <= i < |bindings|
    requires |a| == |a'| && forall j :: 0 <= j < |a| ==>
      a[j].name == a'[j].name && a[j].tensorDims == a'[j].tensorDims && a[j].tensorType == a'[j].tensorType
    ensures InputsAccepted(bindings, i, a) ==> InputsAccepted(bindings, i, a')
  {
    if !InputsAccepted(bindings, i, a') {
      var j :| 0 <= j < |a'| && BindingIndex(bindings, a'[j].name) == i && !InputAccepted(bindings[i], a'[j]);
      assert BindingIndex(bindings, a[j].name) == i && !InputAccepted(bindings[i], a[j]);
    }
  }

  lemma OutputsAcceptedIgnoresIds(bindings: seq<Binding>, i: int, o: seq<OutputTensorInfo>, o': seq<OutputTensorInfo>)
    requires 0 <= i < |bindings|
    requires |o| == |o'| && forall j :: 0 <= j < |o| ==> o[j].name == o'[j].name && o[j].tensorType == o'[j].tensorType
    ensures OutputsAccepted(bindings, i, o) ==> OutputsAccepted(bindings, i, o')
  {
    if !OutputsAccepted(bindings, i, o') {
      var j :| 0 <= j < |o'| && BindingIndex(bindings, o'[j].name) == i && !TypesMatch(o'[j].tensorType, bindings[i].dataType);
      assert BindingIndex(bindings, o[j].name) == i;
    }
  }

  /** The byte sizes of the first n host buffers. */
  function BufferList(bindings: seq<Binding>, n: nat): (r: seq<int>)
    requires n <= |bindings|
    ensures |r| == n && forall i :: 0 <= i < n ==> BufferBytes(bindings[i]) == Some(r[i]) || BufferBytes(bindings[i]).None?
  {
    if n == 0 then []
    else BufferList(bindings, n - 1) + [match BufferBytes(bindings[n - 1]) case Some(b) => b case None => 0]
  }

  /** An output bound to binding i: its id, the dimensions read as N, C, H, W
      (a fifth one is not read) and, for INT8, scale 1 and zero point 0. */
  function OutputBound(info: OutputTensorInfo, i: int, b: Binding): (r: OutputTensorInfo)
    ensures r.id == i && r.name == info.name && r.tensorType == info.tensorType
    ensures b.dataType == KInt8 ==> r.quantScale == 1.0 && r.quantZeroPoint == 0
    ensures b.dataType != KInt8 ==> r.quantScale == info.quantScale && r.quantZeroPoint == info.quantZeroPoint
  {
    var d := info.tensorDims;
    var dims := TensorDims(if |b.dims| > 0 then b.dims[0] else d.batch, if |b.dims| > 2 then b.dims[2] else d.height,
                           if |b.dims| > 3 then b.dims[3] else d.width, if |b.dims| > 1 then b.dims[1] else d.channel);
    var r := info.(id := i, tensorDims := dims);
    if b.dataType == KInt8 then r.(quantScale := 1.0, quantZeroPoint := 0) else r
  }

  /** An input after binding i, an input binding, was processed. */
  function InputBoundAt(bindings: seq<Binding>, info: InputTensorInfo, i: int): InputTensorInfo {
    if BindingIndex(bindings, info.name) == i then info.(id := i) else info
  }

  /** An output after binding i, an output binding, was processed. */
  function OutputBoundAt(bindings: seq<Binding>, info: OutputTensorInfo, i: int): OutputTensorInfo
    requires 0 <= i < |bindings|
  {
    if BindingIndex(bindings, info.name) == i then OutputBound(info, i, bindings[i]) else info
  }

  /** An input after the bindings below n were processed. */
  function InputBoundBelow(bindings: seq<Binding>, info: InputTensorInfo, n: int): (r: InputTensorInfo)
    ensures r.name == info.name && r.tensorDims == info.tensorDims && r.tensorType == info.tensorType
  {
    var k := BindingIndex(bindings, info.name);
    if 0 <= k < n && bindings[k].isInput then info.(id := k) else info
  }

  /** An output after the bindings below n were processed. */
  function OutputBoundBelow(bindings: seq<Binding>, info: OutputTensorInfo, n: int): (r: OutputTensorInfo)
    ensures r.name == info.name && r.tensorType == info.tensorType
  {
    var k := BindingIndex(bindings, info.name);
    if 0 <= k < n && !bindings[k].isInput then OutputBound(info, k, bindings[k]) else info
  }

  lemma InputBoundStep(bindings: seq<Binding>, info: InputTensorInfo, i: int)
    requires 0 <= i < |bindings|
    ensures InputBoundBelow(bindings, info, i + 1) ==
      if bindings[i].isInput then InputBoundAt(bindings, InputBoundBelow(bindings, info, i), i)
      else InputBoundBelow(bindings, info, i)
  {
  }

  lemma OutputBoundStep(bindings: seq<Binding>, info: OutputTensorInfo, i: int)
    requires 0 <= i < |bindings|
    ensures OutputBoundBelow(bindings, info, i + 1) ==
      if bindings[i].isInput then OutputBoundBelow(bindings, info, i)
      else OutputBoundAt(bindings, OutputBoundBelow(bindings, info, i), i)
  {
  }

  /** The input loop of allocateBuffers for binding i: every input naming it
      takes id i and must pass the dimension and type checks. */
  method BindInputs(bindings: seq<Binding>, i: int, infos: seq<InputTensorInfo>) returns (ok: bool, r: seq<InputTensorInfo>)
    requires 0 <= i < |bindings|
    ensures ok <==> InputsAccepted(bindings, i, infos)
    ensures ok ==> |r| == |infos| && forall j :: 0 <= j < |r| ==> r[j] == InputBoundAt(bindings, infos[j], i)
  {
    r := infos;
    for j := 0 to |infos|
      invariant |r| == |infos|
      invariant forall j' :: 0 <= j' < j ==> r[j'] == InputBoundAt(bindings, infos[j'], i)
      invariant forall j' :: j <= j' < |r| ==> r[j'] == infos[j']
      invariant forall j' :: 0 <= j' < j && BindingIndex(bindings, infos[j'].name) == i ==> InputAccepted(bindings[i], infos[j'])
    {
      if BindingIndex(bindings, r[j].name) == i {
        r := r[j := r[j].(id := i)];
        if !InputAccepted(bindings[i], r[j]) {
          return false, r;
        }
      }
    }
    ok := true;
  }

  /** The output loop of allocateBuffers for binding i: every output naming
      it takes id i and the binding's dimensions, and must have a matching
      type; an INT8 binding sets scale 1 and zero point 0. */
  method BindOutputs(bindings: seq<Binding>, i: int, infos: seq<OutputTensorInfo>) returns (ok: bool, r: seq<OutputTensorInfo>)
    requires 0 <= i < |bindings|
    ensures ok <==> OutputsAccepted(bindings, i, infos)
    ensures ok ==> |r| == |infos| && forall j :: 0 <= j < |r| ==> r[j] == OutputBoundAt(bindings, infos[j], i)
  {
    r := infos;
    for j := 0 to |infos|
      invariant |r| == |infos|
      invariant forall j' :: 0 <= j' < j ==> r[j'] == OutputBoundAt(bindings, infos[j'], i)
      invariant forall j' :: j <= j' < |r| ==> r[j'] == infos[j']
      invariant forall j' :: 0 <= j' < j && BindingIndex(bindings, infos[j'].name) == i ==>
        TypesMatch(infos[j'].tensorType, bindings[i].dataType)
    {
      if BindingIndex(bindings, r[j].name) == i {
        if !TypesMatch(r[j].tensorType, bindings[i].dataType) {
          return false, r;
        }
        r := r[j := OutputBound(r[j], i, bindings[i])];
      }
    }
    ok := true;
  }

  /** The name resolves to an input binding. */
  predicate NamesInput(bindings: seq<Binding>, name: string) {
    var k := BindingIndex(bindings, name);
    k >= 0 && bindings[k].isInput
  }

  /** The name resolves to an output binding. */
  predicate NamesOutput(bindings: seq<Binding>, name: string) {
    var k := BindingIndex(bindings, name);
    k >= 0 && !bindings[k].isInput
  }

  /** The tensors after binding i was processed, given them before. */
  lemma InputsStep(bindings: seq<Binding>, i: int, inputs: seq<InputTensorInfo>, before: seq<InputTensorInfo>,
                   after: seq<InputTensorInfo>)
    requires 0 <= i < |bindings|
    requires |before| == |inputs| && forall j :: 0 <= j < |before| ==> before[j] == InputBoundBelow(bindings, inputs[j], i)
    requires |after| == |before| && forall j :: 0 <= j < |after| ==>
      after[j] == if bindings[i].isInput then InputBoundAt(bindings, before[j], i) else before[j]
    ensures forall j :: 0 <= j < |after| ==> after[j] == InputBoundBelow(bindings, inputs[j], i + 1)
  {
    forall j | 0 <= j < |after|
      ensures after[j] == InputBoundBelow(bindings, inputs[j], i + 1)
    {
      InputBoundStep(bindings, inputs[j], i);
    }
  }

  lemma OutputsStep(bindings: seq<Binding>, i: int, outputs: seq<OutputTensorInfo>, before: seq<OutputTensorInfo>,
                    after: seq<OutputTensorInfo>)
    requires 0 <= i < |bindings|
    requires |before| == |outputs| && forall j :: 0 <= j < |before| ==> before[j] == OutputBoundBelow(bindings, outputs[j], i)
    requires |after| == |before| && forall j :: 0 <= j < |after| ==>
      after[j] == if bindings[i].isInput then before[j] else OutputBoundAt(bindings, before[j], i)
    ensures forall j :: 0 <= j < |after| ==> after[j] == OutputBoundBelow(bindings, outputs[j], i + 1)
  {
    forall j | 0 <= j < |after|
      ensures after[j] == OutputBoundBelow(bindings, outputs[j], i + 1)
    {
      OutputBoundStep(bindings, outputs[j], i);
    }
  }

  /** The tensor loops of allocateBuffers for binding i: the inputs for an
      input binding, the outputs otherwise. */
  method BindTensors(bindings: seq<Binding>, i: int, ins: seq<InputTensorInfo>, outs: seq<OutputTensorInfo>)
    returns (ok: bool, ins': seq<InputTensorInfo>, outs': seq<OutputTensorInfo>)
    requires 0 <= i < |bindings|
    ensures ok <==> BindingAccepted(bindings, i, ins, outs)
    ensures ok ==> |ins'| == |ins| && forall j :: 0 <= j < |ins'| ==>
      ins'[j] == if bindings[i].isInput then InputBoundAt(bindings, ins[j], i) else ins[j]
    ensures ok ==> |outs'| == |outs| && forall j :: 0 <= j < |outs'| ==>
      outs'[j] == if bindings[i].isInput then outs[j] else OutputBoundAt(bindings, outs[j], i)
  {
    ins', outs' := ins, outs;
    if bindings[i].isInput {
      ok, ins' := BindInputs(bindings, i, ins);
    } else {
      ok, outs' := BindOutputs(bindings, i, outs);
    }
  }

  /** The inputs with every id set to -1, as initialize does first. */
  function ResetInputIds(infos: seq<InputTensorInfo>): (r: seq<InputTensorInfo>)
    ensures |r| == |infos| && forall j :: 0 <= j < |r| ==> r[j] == infos[j].(id := -1)
  {
    seq(|infos|, j requires 0 <= j < |infos| => infos[j].(id := -1))
  }

  /** The outputs with every id set to -1. */
  function ResetOutputIds(infos: seq<OutputTensorInfo>): (r: seq<OutputTensorInfo>)
    ensures |r| == |infos| && forall j :: 0 <= j < |r| ==> r[j] == infos[j].(id := -1)
  {
    seq(|infos|, j requires 0 <= j < |infos| => infos[j].(id := -1))
  }

  lemma AllAcceptedIgnoresIds(bindings: seq<Binding>, a: seq<InputTensorInfo>, a': seq<InputTensorInfo>,
                              o: seq<OutputTensorInfo>, o': seq<OutputTensorInfo>)
    requires |a| == |a'| && forall j :: 0 <= j < |a| ==>
      a[j].name == a'[j].name && a[j].tensorDims == a'[j].tensorDims && a[j].tensorType == a'[j].tensorType
    requires |o| == |o'| && forall j :: 0 <= j < |o| ==> o[j].name == o'[j].name && o[j].tensorType == o'[j].tensorType
    ensures AllAccepted(bindings, a, o) <==> AllAccepted(bindings, a', o')
  {
    forall i | 0 <= i < |bindings|
      ensures BindingAccepted(bindings, i, a, o) <==> BindingAccepted(bindings, i, a', o')
    {
      AcceptanceAtIgnoresIds(bindings, i, a, a', o, o');
    }
  }

  /** After allocation from reset ids, an input's id is set exactly when its
      name resolves to an input binding, and then it is that binding's index. */
  lemma InputsResolved(bindings: seq<Binding>, inputs: seq<InputTensorInfo>, ins: seq<InputTensorInfo>)
    requires |ins| == |inputs| && forall j :: 0 <= j < |ins| ==>
      ins[j] == InputBoundBelow(bindings, ResetInputIds(inputs)[j], |bindings|)
    ensures forall j :: 0 <= j < |ins| ==> (ins[j].id != -1 <==> NamesInput(bindings, inputs[j].name))
    ensures forall j :: 0 <= j < |ins| && NamesInput(bindings, inputs[j].name) ==>
      ins[j] == inputs[j].(id := BindingIndex(bindings, inputs[j].name))
  {
  }

  /** The same for the outputs, which also take the binding's dimensions and
      quantisation. */
  lemma OutputsResolved(bindings: seq<Binding>, outputs: seq<OutputTensorInfo>, outs: seq<OutputTensorInfo>)
    requires |outs| == |outputs| && forall j :: 0 <= j < |outs| ==>
      outs[j] == OutputBoundBelow(bindings, ResetOutputIds(outputs)[j], |bindings|)
    ensures forall j :: 0 <= j < |outs| ==> (outs[j].id != -1 <==> NamesOutput(bindings, outputs[j].name))
    ensures forall j :: 0 <= j < |outs| && NamesOutput(bindings, outputs[j].name) ==>
      outs[j] == OutputBound(outputs[j], BindingIndex(bindings, outputs[j].name), bindings[BindingIndex(bindings, outputs[j].name)])
  {
  }

  /** The final check of initialize: a tensor whose id is still -1 was not
      found among the bindings. */
  method IdsFound(ins: seq<InputTensorInfo>, outs: seq<OutputTensorInfo>) returns (st: Status)
    ensures st == Ok <==> (forall j :: 0 <= j < |ins| ==> ins[j].id != -1) && (forall j :: 0 <= j < |outs| ==> outs[j].id != -1)
  {
    for j := 0 to |ins|
      invariant forall j' :: 0 <= j' < j ==> ins[j'].id != -1
    {
      if ins[j].id == -1 {
        return Err;
      }
    }
    for j := 0 to |outs|
      invariant forall j' :: 0 <= j' < j ==> outs[j'].id != -1
    {
      if outs[j].id == -1 {
        return Err;
      }
    }
    st := Ok;
  }

  /** Every input description is bound to the bindings below n. */
  predicate InputsBound(bindings: seq<Binding>, n: int, inputs: seq<InputTensorInfo>, ins: seq<InputTensorInfo>) {
    |ins| == |inputs| && forall j :: 0 <= j < |ins| ==> ins[j] == InputBoundBelow(bindings, inputs[j], n)
  }

  /** Every output description is bound to the bindings below n. */
  predicate OutputsBound(bindings: seq<Binding>, n: int, outputs: seq<OutputTensorInfo>, outs: seq<OutputTensorInfo>) {
    |outs| == |outputs| && forall j :: 0 <= j < |outs| ==> outs[j] == OutputBoundBelow(bindings, outputs[j], n)
  }

  /** The loop of allocateBuffers: one host buffer size per binding, then
      the callers' tensors whose names resolve to the binding take its index
      and are checked. The first failure returns RET_ERR, with the sizes
      pushed so far. */
  method Allocate(bindings: seq<Binding>, inputs: seq<InputTensorInfo>, outputs: seq<OutputTensorInfo>)
    returns (st: Status, sizes: seq<int>, ins: seq<InputTensorInfo>, outs: seq<OutputTensorInfo>)
    ensures st == Ok <==> AllAccepted(bindings, inputs, outputs)
    ensures st == Ok ==> sizes == BufferList(bindings, |bindings|)
    ensures st == Ok ==> |ins| == |inputs| && forall j :: 0 <= j < |ins| ==>
      ins[j] == InputBoundBelow(bindings, inputs[j], |bindings|)
    ensures st == Ok ==> |outs| == |outputs| && forall j :: 0 <= j < |outs| ==>
      outs[j] == OutputBoundBelow(bindings, outputs[j], |bindings|)
  {
    sizes, ins, outs := [], inputs, outputs;
    for i := 0 to |bindings|
      invariant AcceptedBelow(bindings, i, inputs, outputs) && sizes == BufferList(bindings, i)
      invariant InputsBound(bindings, i, inputs, ins) && OutputsBound(bindings, i, outputs, outs)
    {
      var ok;
      ok, sizes, ins, outs := AllocateOne(bindings, i, inputs, outputs, sizes, ins, outs);
      if !ok {
        AcceptedBelowAll(bindings, |bindings|, inputs, outputs);
        return Err, sizes, ins, outs;
      }
    }
    AcceptedBelowAll(bindings, |bindings|, inputs, outputs);
    st := Ok;
  }

  /** One pass of the loop of allocateBuffers for binding i: it fails exactly when the
      binding has no buffer type or does not accept the tensors naming it; otherwise
      the binding is accepted, its size is pushed and the tensors naming it are bound. */
  method AllocateOne(bindings: seq<Binding>, i: int, inputs: seq<InputTensorInfo>, outputs: seq<OutputTensorInfo>,
                     sizes: seq<int>, ins: seq<InputTensorInfo>, outs: seq<OutputTensorInfo>)
    returns (ok: bool, sizes': seq<int>, ins': seq<InputTensorInfo>, outs': seq<OutputTensorInfo>)
    requires 0 <= i < |bindings| && AcceptedBelow(bindings, i, inputs, outputs) && sizes == BufferList(bindings, i)
    requires InputsBound(bindings, i, inputs, ins) && OutputsBound(bindings, i, outputs, outs)
    ensures ok <==> BufferBytes(bindings[i]).Some? && BindingAccepted(bindings, i, inputs, outputs)
    ensures ok ==> AcceptedBelow(bindings, i + 1, inputs, outputs) && sizes' == BufferList(bindings, i + 1)
    ensures ok ==> InputsBound(bindings, i + 1, inputs, ins') && OutputsBound(bindings, i + 1, outputs, outs')
  {
    sizes', ins', outs' := sizes, ins, outs;
    var size := BufferBytes(bindings[i]);
    if size.None? {
      return false, sizes', ins', outs';
    }
    sizes' := sizes + [size.value];
    AcceptanceAtIgnoresIds(bindings, i, inputs, ins, outputs, outs);
    var bound, boundIns, boundOuts := BindTensors(bindings, i, ins, outs);
    if !bound {
      return false, sizes', ins', outs';
    }
    InputsStep(bindings, i, inputs, ins, boundIns);
    OutputsStep(bindings, i, outputs, outs, boundOuts);
    ok, ins', outs' := true, boundIns, boundOuts;
  }

  class TrtHelper {
    /** The byte sizes of m_bufferListCPU, one per allocated binding (the
        device buffers have the same sizes). */
    var bufferBytes: seq<int>

    constructor ()
      ensures bufferBytes == []
    {
      bufferBytes := [];
    }

    /** allocateBuffers: the host buffers are appended to m_bufferListCPU. */
    method AllocateBuffers(bindings: seq<Binding>, inputs: seq<InputTensorInfo>, outputs: seq<OutputTensorInfo>)
      returns (st: Status, ins: seq<InputTensorInfo>, outs: seq<OutputTensorInfo>)
      modifies this
      ensures st == Ok <==> AllAccepted(bindings, inputs, outputs)
      ensures st == Ok ==> bufferBytes == old(bufferBytes) + BufferList(bindings, |bindings|)
      ensures st == Ok ==> |ins| == |inputs| && forall j :: 0 <= j < |ins| ==>
        ins[j] == InputBoundBelow(bindings, inputs[j], |bindings|)
      ensures st == Ok ==> |outs| == |outputs| && forall j :: 0 <= j < |outs| ==>
        outs[j] == OutputBoundBelow(bindings, outputs[j], |bindings|)
    {
      var sizes;
      st, sizes, ins, outs := Allocate(bindings, inputs, outputs);
      bufferBytes := bufferBytes + sizes;
    }

    /** The tensor part of initialize, after the engine was created (`engineReady`):
        every id is reset to -1, the buffers are allocated, and a tensor whose
        id is still -1 does not exist in the model. */
    method Initialize(modelFilename: string, engineReady: bool, bindings: seq<Binding>,
                      inputs: seq<InputTensorInfo>, outputs: seq<OutputTensorInfo>)
      returns (st: Status, ins: seq<InputTensorInfo>, outs: seq<OutputTensorInfo>)
      modifies this
      ensures ModelFormatOf(modelFilename) == UnsupportedFormat ==> st == Err
      ensures st == Ok <==>
        ModelFormatOf(modelFilename) != UnsupportedFormat && engineReady && AllAccepted(bindings, inputs, outputs)
        && (forall j :: 0 <= j < |inputs| ==> NamesInput(bindings, inputs[j].name))
        && (forall j :: 0 <= j < |outputs| ==> NamesOutput(bindings, outputs[j].name))
      ensures st == Ok ==> |ins| == |inputs| && forall j :: 0 <= j < |ins| ==>
        ins[j] == inputs[j].(id := BindingIndex(bindings, inputs[j].name))
      ensures st == Ok ==> |outs| == |outputs| && forall j :: 0 <= j < |outs| ==>
        outs[j] == OutputBound(outputs[j], BindingIndex(bindings, outputs[j].name),
                               bindings[BindingIndex(bindings, outputs[j].name)])
    {
      ins, outs := inputs, outputs;
      if ModelFormatOf(modelFilename) == UnsupportedFormat || !engineReady {
        return Err, ins, outs;
      }
      var reset, resetOut := ResetInputIds(inputs), ResetOutputIds(outputs);
      AllAcceptedIgnoresIds(bindings, reset, inputs, resetOut, outputs);
      st, ins, outs := AllocateBuffers(bindings, reset, resetOut);
      if st == Err {
        return;
      }
      InputsResolved(bindings, inputs, ins);
      OutputsResolved(bindings, outputs, outs);
      st := IdsFound(ins, outs);
    }

    // -------------------------------------------------------------------
    // preProcess

    /** The branch preProcess takes for one input, given the byte size of
        the host buffer its id names. */
    static function InputTransfer(info: InputTensorInfo, bytes: int): (t: Transfer)
      ensures t == NormalizeToNchw <==> (info.dataKind == Image && IsPlainImage(info)
                                         && info.tensorType == TypeFp32 && bytes == ImageBytes(info.imageInfo, 4))
      ensures t == PermuteImageToNchw <==> (info.dataKind == Image && IsPlainImage(info)
                                            && info.tensorType == TypeUint8 && bytes == ImageBytes(info.imageInfo, 1))
      ensures t == PermuteBlobToNchw <==> info.dataKind == BlobNhwc
      ensures t == CopyBlob <==> info.dataKind == BlobNchw
    {
      match info.dataKind
      case Image =>
        if PlainImageCheck(info) == Err then Rejected
        else if info.tensorType == TypeFp32 then
          (if bytes != ImageBytes(info.imageInfo, 4) then Rejected else NormalizeToNchw)
        else if info.tensorType == TypeUint8 then
          (if bytes != ImageBytes(info.imageInfo, 1) then Rejected else PermuteImageToNchw)
        else Rejected
      case BlobNhwc => PermuteBlobToNchw
      case BlobNchw => CopyBlob
      case OtherKind => Rejected
    }

    /** preProcess without the data movement: the checks in input order,
        with the transfer chosen for each input. */
    method PreProcess(inputs: seq<InputTensorInfo>) returns (st: Status, transfers: seq<Transfer>)
      requires forall i :: 0 <= i < |inputs| ==> 0 <= inputs[i].id < |bufferBytes|
      ensures st == Ok <==> forall i :: 0 <= i < |inputs| ==>
        InputTransfer(inputs[i], bufferBytes[inputs[i].id]) != Rejected
      ensures st == Ok ==> |transfers| == |inputs|
      ensures |transfers| <= |inputs|
      ensures forall i :: 0 <= i < |transfers| ==>
        transfers[i] == InputTransfer(inputs[i], bufferBytes[inputs[i].id]) && transfers[i] != Rejected
    {
      transfers := [];
      for i := 0 to |inputs|
        invariant |transfers| == i
        invariant forall j :: 0 <= j < i ==>
          transfers[j] == InputTransfer(inputs[j], bufferBytes[inputs[j].id]) && transfers[j] != Rejected
      {
        var t := InputTransfer(inputs[i], bufferBytes[inputs[i].id]);
        if t == Rejected {
          return Err, transfers;
        }
        transfers := transfers + [t];
      }
      st := Ok;
    }
  }

  /** What TensorRT's preProcess does with the data of one input. */
  datatype Transfer =
    | NormalizeToNchw      // FP32 image: normalised NHWC -> NCHW
    | PermuteImageToNchw   // UINT8 image: NHWC -> NCHW
    | PermuteBlobToNchw    // NHWC blob: NHWC -> NCHW
    | CopyBlob             // NCHW blob: memcpy of the whole buffer
    | Rejected

  /** The host buffer size the image checks demand: width * height * channel
      elements of `elementSize` bytes. */
  function ImageBytes(im: ImageInfo, elementSize: int): int {
    elementSize * im.width * im.height * im.channel
  }

  lemma EqualPointwise<T>(a: seq<T>, b: seq<T>)
    requires |a| == |b| && forall k :: 0 <= k < |a| ==> a[k] == b[k]
    ensures a == b
  {
  }

  /** One step of the FP32 image loop: destination element ch * hw + i is the
      normalised source element i * c + ch. */
  lemma NormalizeStep(s: seq<real>, hw: nat, c: nat, mean: seq<real>, norm: seq<real>, i: int, ch: int, pos: int)
    requires |s| == hw * c && 0 <= i < hw && 0 <= ch < c && c <= |mean| && c <= |norm| && pos == ch * hw + i
    ensures 0 <= pos < hw * c && 0 <= i * c + ch < hw * c
    ensures Transposed(NormalizedNhwc(s, c, mean, norm), hw, c)[pos] == NormalizedValue(s[i * c + ch], mean, norm, ch)
  {
    TransposedAt(NormalizedNhwc(s, c, mean, norm), hw, c, i, ch);
    DivModOf(i * c + ch, i, ch, c);
  }

  /** The FP32 image loop: dst[c * W * H + i] = (src[i * C + c] - mean[c]) * norm[c].
      The result is the NCHW layout of the normalised NHWC image, that is, the
      transpose of what the TensorFlow Lite helper writes. */
  method NormalizeToNchwInto(src: array<real>, dst: array<real>, hw: nat, c: nat, mean: seq<real>, norm: seq<real>)
    requires src != dst && src.Length >= hw * c && dst.Length >= hw * c
    requires c <= |mean| && c <= |norm|
    modifies dst
    ensures c > 0 ==> dst[..hw * c] == Transposed(NormalizedNhwc(src[..hw * c], c, mean, norm), hw, c)
    ensures dst[hw * c..] == old(dst[hw * c..])
  {
    ghost var n := hw * c;
    if c == 0 {
      return;
    }
    ghost var target := Transposed(NormalizedNhwc(src[..n], c, mean, norm), hw, c);
    var pos := 0;
    for ch := 0 to c
      invariant pos == ch * hw && pos <= n
      invariant forall k :: 0 <= k < pos ==> dst[k] == target[k]
      invariant forall k :: pos <= k < dst.Length ==> dst[k] == old(dst[k])
    {
      MulMono(ch + 1, c, hw);
      pos := NormalizeChannel(src, dst, hw, c, mean, norm, ch, pos, target);
    }
    EqualPointwise(dst[..n], target);
  }

  /** The inner loop of the FP32 image loop for channel ch: destination elements
      ch * hw .. ch * hw + hw - 1 take the normalised channel, read with stride c. */
  method NormalizeChannel(src: array<real>, dst: array<real>, hw: nat, c: nat, mean: seq<real>, norm: seq<real>,
                          ch: int, pos: int, ghost target: seq<real>) returns (posOut: int)
    requires src != dst && src.Length >= hw * c && dst.Length >= hw * c
    requires 0 <= ch < c <= |mean| && c <= |norm| && pos == ch * hw && (ch + 1) * hw <= hw * c
    requires target == Transposed(NormalizedNhwc(src[..hw * c], c, mean, norm), hw, c)
    requires forall k :: 0 <= k < pos ==> dst[k] == target[k]
    modifies dst
    ensures posOut == pos + hw && posOut == (ch + 1) * hw
    ensures forall k :: 0 <= k < posOut ==> dst[k] == target[k]
    ensures forall k :: posOut <= k < dst.Length ==> dst[k] == old(dst[k])
  {
    ghost var s := src[..hw * c];
    posOut := pos;
    for i := 0 to hw
      invariant posOut == pos + i
      invariant forall k :: 0 <= k < posOut ==> dst[k] == target[k]
      invariant forall k :: posOut <= k < dst.Length ==> dst[k] == old(dst[k])
    {
      NormalizeStep(s, hw, c, mean, norm, i, ch, posOut);
      dst[posOut] := NormalizedValue(src[i * c + ch], mean, norm, ch);
      posOut := posOut + 1;
    }
  }

  /** Read back with rows and columns swapped, the NCHW image TensorRT
      receives is exactly the normalised NHWC image the TensorFlow Lite helper
      writes: the two back ends agree up to layout. */
  lemma NchwImageReadsBackAsNhwc(s: seq<real>, hw: nat, c: nat, mean: seq<real>, norm: seq<real>)
    requires |s| == hw * c && 0 < c <= |mean| && c <= |norm|
    ensures Transposed(Transposed(NormalizedNhwc(s, c, mean, norm), hw, c), c, hw) == NormalizedNhwc(s, c, mean, norm)
  {
    TransposeRoundTrip(NormalizedNhwc(s, c, mean, norm), hw, c);
  }

  /** The UINT8 image loop and the NHWC blob loop on elements:
      dst[c * W * H + i] = src[i * C + c], the transpose of the HW x C source. */
  method PermuteToNchw<T>(src: array<T>, dst: array<T>, hw: nat, c: nat)
    requires src != dst && src.Length >= hw * c && dst.Length >= hw * c
    modifies dst
    ensures dst[..hw * c] == Transposed(src[..hw * c], hw, c)
    ensures dst[hw * c..] == old(dst[hw * c..])
  {
    TransposeInto(src, dst, c, hw);
  }

  /** The NHWC blob branch as written: whatever the tensor type, the buffers
      are handled as bytes, so only the first W * H * C bytes are permuted,
      one byte at a time. */
  function BlobBytesAsWritten(src: seq<int>, dst: seq<int>, hw: nat, c: nat): (r: seq<int>)
    requires |src| >= hw * c && |dst| >= hw * c
    ensures |r| == |dst|
  {
    Transposed(src[..hw * c], hw, c) + dst[hw * c..]
  }

  /** For an FP32 blob of 2 x 2 elements (16 bytes) holding the bytes
      0, 1, ..., 15: as written, byte 1 of the destination takes source byte 2,
      a byte of the same float, and bytes 4 to 15 (the other three floats) are
      never written, although every byte of the source belongs in the
      destination. */
  lemma BlobBytesAsWrittenSplitsFloats()
    ensures BlobBytesAsWritten(Ramp16(), Zeros16(), 2, 2)[1] == 2
    ensures BlobBytesAsWritten(Ramp16(), Zeros16(), 2, 2)[4..] == Zeros16()[4..]
  {
    assert Ramp16()[..4] == [0, 1, 2, 3];
  }

  /** The bytes 0, 1, ..., 15. */
  function Ramp16(): (r: seq<int>)
    ensures |r| == 16 && forall k :: 0 <= k < 16 ==> r[k] == k
  {
    [0, 1, 2, 3, 4, 5, 6, 7, 8, 9, 10, 11, 12, 13, 14, 15]
  }

  /** Sixteen zero bytes. */
  function Zeros16(): (r: seq<int>)
    ensures |r| == 16 && forall k :: 0 <= k < 16 ==> r[k] == 0
  {
    [0, 0, 0, 0, 0, 0, 0, 0, 0, 0, 0, 0, 0, 0, 0, 0]
  }
}

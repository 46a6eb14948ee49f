// The check the SSD and DeepLab engines make after initialising their inference
// helper: every input tensor must have a positive width and height and a type.

module EngineInit {
  import opened InferenceHelper

  /** An input tensor the engine accepts. */
  predicate InputTensorValid(t: InputTensorInfo) {
    t.tensorDims.width > 0 && t.tensorDims.height > 0 && t.tensorType != TypeNone
  }

  /** The loop over the input tensors: initialisation fails at the first tensor with a
      non-positive width or height or no type, and succeeds only if there is none. */
  method CheckInputTensors(inputs: seq<InputTensorInfo>) returns (ok: bool)
    ensures ok <==> forall i :: 0 <= i < |inputs| ==> InputTensorValid(inputs[i])
  {
    for i := 0 to |inputs|
      invariant forall k :: 0 <= k < i ==> InputTensorValid(inputs[k])
    {
      var t := inputs[i];
      if t.tensorDims.width <= 0 || t.tensorDims.height <= 0 || t.tensorType == TypeNone {
        return false;
      }
    }
    return true;
  }
}

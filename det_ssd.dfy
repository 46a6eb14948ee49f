// Post-processing of the MobileNet SSD detection engine, in its current and its
// older API (the two decoders are the same code): the model's own NMS output is
// read entry by entry, entries below the threshold are dropped, and the
// normalised corners become a float rectangle in image pixels.

module SsdDetection {
  import opened Common

  /** The threshold `Process` passes to the decoder. */
  const Threshold: real := 0.5

  /** An `Object`: float rectangle, class, label and score. */
  datatype SsdObject = SsdObject(classId: int, labelName: string, score: real,
                                 x: real, y: real, width: real, height: real)

  /** `output_num`: the float in element 0 of output tensor 3, truncated. */
  function OutputNum(out3: seq<real>): int
    requires |out3| > 0
  {
    Trunc(out3[0])
  }

  /** What the three tensors must hold for `num` entries. */
  predicate TensorsFit(boxList: seq<real>, classList: seq<real>, scoreList: seq<real>, num: int) {
    num <= |classList| && num <= |scoreList| && 4 * num <= |boxList|
  }

  /** The label of a class; an index outside the label list is undefined behaviour in
      C++ and gives the empty label here. */
  function LabelOf(labels: seq<string>, classId: int): string {
    if 0 <= classId < |labels| then labels[classId] else ""
  }

  /** The object of entry `i`: corners [y0, x0, y1, x1], scaled to pixels only when
      the width passed is positive; the class is the raw value plus one, truncated. */
  function ObjectAt(boxList: seq<real>, classList: seq<real>, scoreList: seq<real>, i: int,
                    width: int, height: int, labels: seq<string>): SsdObject
    requires 0 <= i < |classList| && i < |scoreList| && 4 * i + 4 <= |boxList|
  {
    var sx := if width > 0 then width as real else 1.0;
    var sy := if width > 0 then height as real else 1.0;
    var y0 := boxList[4 * i] * sy;
    var x0 := boxList[4 * i + 1] * sx;
    var y1 := boxList[4 * i + 2] * sy;
    var x1 := boxList[4 * i + 3] * sx;
    var classId := Trunc(classList[i] + 1.0);
    SsdObject(classId, LabelOf(labels, classId), scoreList[i], x0, y0, x1 - x0, y1 - y0)
  }

  /** The rectangle goes back to the corners it was read from: x + width is the right
      edge, y + height the bottom edge, each scaled exactly when the width is positive. */
  lemma ObjectCorners(boxList: seq<real>, classList: seq<real>, scoreList: seq<real>, i: int,
                      width: int, height: int, labels: seq<string>)
    requires 0 <= i < |classList| && i < |scoreList| && 4 * i + 4 <= |boxList|
    ensures var o := ObjectAt(boxList, classList, scoreList, i, width, height, labels);
      (width > 0 ==>
        o.x == boxList[4 * i + 1] * width as real && o.x + o.width == boxList[4 * i + 3] * width as real &&
        o.y == boxList[4 * i] * height as real && o.y + o.height == boxList[4 * i + 2] * height as real) &&
      (width <= 0 ==>
        o.x == boxList[4 * i + 1] && o.x + o.width == boxList[4 * i + 3] &&
        o.y == boxList[4 * i] && o.y + o.height == boxList[4 * i + 2]) &&
      o.score == scoreList[i] && o.labelName == LabelOf(labels, o.classId)
  {
  }

  /** A whole, non-negative class value k from the model names label k + 1. */
  lemma ClassShift(c: real, k: int)
    requires c == k as real && k >= 0
    ensures Trunc(c + 1.0) == k + 1
  {
  }

  /** The objects of entries 0 .. n-1 whose score is not below the threshold. */
  function Objects(boxList: seq<real>, classList: seq<real>, scoreList: seq<real>, n: int,
                   threshold: real, width: int, height: int, labels: seq<string>): (objects: seq<SsdObject>)
    requires TensorsFit(boxList, classList, scoreList, n)
  {
    if n <= 0 then []
    else
      var prev := Objects(boxList, classList, scoreList, n - 1, threshold, width, height, labels);
      if scoreList[n - 1] < threshold then prev
      else prev + [ObjectAt(boxList, classList, scoreList, n - 1, width, height, labels)]
  }

  /** An object is reported exactly when some entry below `n` reaches the threshold
      and yields it; at most `n` objects come out. */
  lemma {:induction false} ObjectsMembers(boxList: seq<real>, classList: seq<real>, scoreList: seq<real>, n: int,
                                          threshold: real, width: int, height: int, labels: seq<string>, o: SsdObject)
    requires TensorsFit(boxList, classList, scoreList, n)
    ensures |Objects(boxList, classList, scoreList, n, threshold, width, height, labels)| <= Max(n, 0)
    ensures o in Objects(boxList, classList, scoreList, n, threshold, width, height, labels) <==>
      exists i :: 0 <= i < n && scoreList[i] >= threshold && o == ObjectAt(boxList, classList, scoreList, i, width, height, labels)
  {
    if n > 0 {
      ObjectsMembers(boxList, classList, scoreList, n - 1, threshold, width, height, labels, o);
      if o == ObjectAt(boxList, classList, scoreList, n - 1, width, height, labels) && scoreList[n - 1] >= threshold {
        assert 0 <= n - 1 < n;
      }
    }
  }

  /** `GetObject` (and the older `getObject`): one pass over the entries. */
  method GetObject(boxList: seq<real>, classList: seq<real>, scoreList: seq<real>, outputNum: int,
                   threshold: real, width: int, height: int, labels: seq<string>) returns (objects: seq<SsdObject>)
    requires TensorsFit(boxList, classList, scoreList, outputNum)
    ensures objects == Objects(boxList, classList, scoreList, outputNum, threshold, width, height, labels)
  {
    objects := [];
    var i := 0;
    while i < outputNum
      invariant 0 <= i && (i == 0 || i <= outputNum)
      invariant objects == Objects(boxList, classList, scoreList, i, threshold, width, height, labels)
    {
      var score := scoreList[i];
      if score < threshold {
        i := i + 1;
        continue;
      }
      objects := objects + [ObjectAt(boxList, classList, scoreList, i, width, height, labels)];
      i := i + 1;
    }
  }

  /** The post-processing of `Process`: the entry count from output tensor 3, the
      threshold 0.5 and the original image's size. */
  method PostProcess(boxList: seq<real>, classList: seq<real>, scoreList: seq<real>, out3: seq<real>,
                     cols: int, rows: int, labels: seq<string>) returns (objects: seq<SsdObject>)
    requires |out3| > 0 && TensorsFit(boxList, classList, scoreList, OutputNum(out3))
    ensures objects == Objects(boxList, classList, scoreList, OutputNum(out3), Threshold, cols, rows, labels)
    ensures forall o :: o in objects ==> o.score >= Threshold
  {
    var outputNum := OutputNum(out3);
    objects := GetObject(boxList, classList, scoreList, outputNum, Threshold, cols, rows, labels);
    forall o | o in objects
      ensures o.score >= Threshold
    {
      ObjectsMembers(boxList, classList, scoreList, outputNum, Threshold, cols, rows, labels, o);
    }
  }
}
